/** Names shared by the batch queue and the page writer. */
module BatchTypes {

  datatype Kind = Http | Browser

  /** A job, by kind and URL; River keeps the pair unique in every state, so it stands for the job id. */
  datatype JobKey = JobKey(kind: Kind, url: string)

  /** Where a stored page is: file and line. */
  datatype Ref = Ref(file: nat, line: nat)
}
