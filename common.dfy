/** Small vocabulary shared by the models of pkg/server/server.go and pkg/server/http.go. */
module Common {

  /** A value that may be absent, e.g. the result of a JSON decode that can fail. */
  datatype Option<T> = None | Some(value: T)

  /** The error result of a call into an agent: nil, or some error. */
  datatype Outcome = Ok | Failed(reason: string)

  /** One `AddVoter(id, address)` call issued against the Raft engine. */
  datatype VoterCall = VoterCall(id: string, addr: string)

  /** Go's `strings.HasPrefix`. */
  predicate HasPrefix(s: string, p: string)
  {
    |p| <= |s| && s[..|p|] == p
  }
}
