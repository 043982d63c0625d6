/** The kinds and states a session's row records (src/db/models.rs). */
module SessionKinds {

  datatype Mode = Sandbox | Repo

  /** The lifecycle states some command writes. */
  datatype State = Cloning | Starting | Seeding | Running | Stopped | Syncing | Destroying | Closed
}
