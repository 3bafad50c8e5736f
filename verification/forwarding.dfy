/**
  What the handshake records about the HTTP request that opened a websocket: the snapshot of
  forwarded headers handed to a new client, and the address the client is logged under.
 */
module Forwarding {
  import opened Wrappers
  import opened Http

  /** Go's map lookup on a `map[string]bool`: a missing name reads as false. */
  function Flag(policy: map<string, bool>, name: string): bool {
    name in policy && policy[name]
  }

  /** The forwarding policy lets a request header through: the wildcard is on, or its lower-cased name is. */
  predicate Allows(policy: map<string, bool>, name: string)
    ensures Flag(policy, "*") ==> Allows(policy, name)
    ensures ToLower(name) in policy && policy[ToLower(name)] ==> Allows(policy, name)
    ensures Allows(policy, name) ==>
      ("*" in policy && policy["*"]) || (ToLower(name) in policy && policy[ToLower(name)])
  {
    Flag(policy, "*") || Flag(policy, ToLower(name))
  }

  /**
    The forwarded-header snapshot: empty for a nil policy, otherwise every request header the
    policy allows, with its list of values.
   */
  function ForwardedSnapshot(policy: Option<map<string, bool>>, request: Header): (snap: Header)
    ensures snap.Keys <= request.Keys
    ensures forall name :: name in snap ==> snap[name] == request[name]
  {
    match policy
    case None => map[]
    case Some(p) => map name | name in request && Allows(p, name) :: request[name]
  }

  /** A nil policy forwards nothing. */
  lemma NilPolicyForwardsNothing(request: Header)
    ensures ForwardedSnapshot(None, request) == map[]
  {
  }

  /**
    Under a policy, a name is in the snapshot exactly when it is a request header the policy
    allows; it keeps the request's values, and nothing outside the request appears.
   */
  lemma SnapshotMembership(policy: map<string, bool>, request: Header, name: string)
    ensures name in ForwardedSnapshot(Some(policy), request) <==>
      name in request && (Flag(policy, "*") || Flag(policy, ToLower(name)))
    ensures name in ForwardedSnapshot(Some(policy), request) ==>
      ForwardedSnapshot(Some(policy), request)[name] == request[name]
  {
  }

  /** The wildcard forwards the whole request header map. */
  lemma WildcardForwardsAll(policy: map<string, bool>, request: Header)
    requires Flag(policy, "*")
    ensures ForwardedSnapshot(Some(policy), request) == request
  {
  }

  /** The policy looks at names case-insensitively: two spellings of one name are forwarded alike. */
  lemma SnapshotIgnoresCase(policy: map<string, bool>, request: Header, a: string, b: string)
    requires a in request && b in request
    requires SameUpToCase(a, b)
    ensures a in ForwardedSnapshot(Some(policy), request) <==> b in ForwardedSnapshot(Some(policy), request)
  {
    ToLowerIgnoresCase(a, b);
  }

  /**
    The loop of `ServeHTTP` that builds the snapshot: for a non-nil policy, visit every request
    header once, in no particular order, and copy the allowed ones.
   */
  method FilterHeaders(policy: Option<map<string, bool>>, request: Header) returns (header: Header)
    ensures header == ForwardedSnapshot(policy, request)
  {
    header := map[];
    if policy.Some? {
      var p := policy.value;
      var pending := request.Keys;
      while pending != {}
        invariant pending <= request.Keys
        invariant forall name :: name in header <==> name in request && name !in pending && Allows(p, name)
        invariant forall name :: name in header ==> header[name] == request[name]
        decreases pending
      {
        var name :| name in pending;
        if Flag(p, "*") || Flag(p, ToLower(name)) {
          header := header[name := request[name]];
        }
        pending := pending - {name};
      }
    }
  }

  /**
    `getRemoteAddr`: the first X-Forwarded-For value when the request came through a proxy that
    set one, the peer address of the socket otherwise.
   */
  function GetRemoteAddr(r: Request): (addr: string)
    ensures Get(r.header, "X-FORWARDED-FOR") != "" ==> addr == Get(r.header, "X-FORWARDED-FOR")
    ensures Get(r.header, "X-FORWARDED-FOR") == "" ==> addr == r.remoteAddr
    ensures addr == r.remoteAddr || addr == FirstValue(r.header, CanonicalKey("X-FORWARDED-FOR"))
    ensures r.remoteAddr != "" ==> addr != ""
  {
    var forwarded := Get(r.header, "X-FORWARDED-FOR");
    if forwarded != "" then forwarded else r.remoteAddr
  }

}
