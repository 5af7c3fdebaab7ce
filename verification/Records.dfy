/** What is recorded about one file: its identity, its length, and what sharing it would have to respect. */
module Records {
  import opened Common

  const MINIMUM: U64 := 64 * 1024

  datatype Identity = Identity(volume: U64, file: U128)

  datatype Method = CloneAndSwap | DedupeRange

  datatype Owner = Caller | OtherUser

  datatype Mode = Plain | Executable

  datatype Sharing = Unknown | Cluster(cluster: U64)

  datatype FileFacts = FileFacts(
    identity: Identity, len: U64, links: U64, owner: Owner, mode: Mode, sharing: Sharing)
}
