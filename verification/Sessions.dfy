/** The open sessions that the spawn tree and the rail arrange (dashboard/src/data/railModel.ts). */
module Sessions {
  import opened Prelude

  /** A session without a status counts as running. */
  datatype Status = Running | Exited | Landed | Terminated

  datatype DocRef = DocRef(repository: string, path: string)

  /** `spawnedBy` is empty when the session was not spawned by another; `ref` and `role` are its seat. */
  datatype Session = Session(id: string, status: Status, spawnedBy: string, ref: Option<DocRef>, role: string)
}
