/** The simulation stages the user can select (types.ts). */
module Types {

  /** Exactly one stage is active at a time; the user switches instantly. */
  datatype StarStage = Separated | Contact | Merged | BlackHole
}
