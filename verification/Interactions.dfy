/** What the ledger of interactions records about each. */
module Interactions {
  datatype Kind = Process(pid: string) | Filesystem

  datatype RowState = Active | Detached | Finished
}
