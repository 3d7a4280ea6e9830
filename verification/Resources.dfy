/** The kinds of native resource. */
module Resources {
  datatype Kind = Device | Application | Container | Digest
}
