/**
  The parts of Go's net/http and strings packages that the websocket handshake relies on:
  header maps, case folding of header names and the lookup done by `Header.Get` and
  `url.Values.Get`. Characters are treated as ASCII.
 */
module Http {

  /** A header (or query) map: every name holds the list of values received under it. */
  type Header = map<string, seq<string>>

  /** An incoming upgrade request, reduced to what the handshake reads of it. */
  datatype Request = Request(header: Header, remoteAddr: string, query: map<string, seq<string>>)

  function LowerChar(c: char): char {
    if 'A' <= c <= 'Z' then (c as int + 32) as char else c
  }

  function UpperChar(c: char): char {
    if 'a' <= c <= 'z' then (c as int - 32) as char else c
  }

  /** `strings.ToLower`, on ASCII letters. */
  function ToLower(s: string): (r: string)
    ensures |r| == |s|
    ensures forall i :: 0 <= i < |s| ==> r[i] == LowerChar(s[i])
  {
    if s == [] then [] else [LowerChar(s[0])] + ToLower(s[1..])
  }

  /** Lower-casing twice is lower-casing once: a policy key written in lower case is a fixed point. */
  lemma ToLowerIdempotent(s: string)
    ensures ToLower(ToLower(s)) == ToLower(s)
  {
  }

  /** `t` spells `s` with some letters in the other case. */
  predicate SameUpToCase(s: string, t: string) {
    |s| == |t| && forall i :: 0 <= i < |s| ==> s[i] == t[i] || UpperChar(s[i]) == t[i] || LowerChar(s[i]) == t[i]
  }

  /** Names that differ only in the case of their letters have the same lower-cased form. */
  lemma ToLowerIgnoresCase(s: string, t: string)
    requires SameUpToCase(s, t)
    ensures ToLower(s) == ToLower(t)
  {
    forall i | 0 <= i < |s| ensures LowerChar(s[i]) == LowerChar(t[i]) {
      assert LowerChar(UpperChar(s[i])) == LowerChar(s[i]);
      assert LowerChar(LowerChar(s[i])) == LowerChar(s[i]);
    }
  }

  /** A byte allowed in an HTTP header name (an RFC 7230 token character). */
  predicate IsTokenChar(c: char) {
    || 'a' <= c <= 'z'
    || 'A' <= c <= 'Z'
    || '0' <= c <= '9'
    || c in "!#$%&'*+-.^_`|~"
  }

  /** Canonical casing of a valid name: upper case at the start and after every '-', lower case elsewhere. */
  function Canon(s: string, upper: bool): (r: string)
    ensures |r| == |s|
    ensures forall i :: 0 <= i < |s| ==>
      r[i] == if (if i == 0 then upper else s[i - 1] == '-') then UpperChar(s[i]) else LowerChar(s[i])
  {
    if s == [] then []
    else [if upper then UpperChar(s[0]) else LowerChar(s[0])] + Canon(s[1..], s[0] == '-')
  }

  /**
    `textproto.CanonicalMIMEHeaderKey`: a name made of token characters gets upper case at the start
    and after every '-' and lower case elsewhere; names holding any other character are left as they are.
   */
  function CanonicalKey(name: string): (r: string)
    ensures |r| == |name|
    ensures (forall i :: 0 <= i < |name| ==> IsTokenChar(name[i])) ==>
      forall i :: 0 <= i < |name| ==>
        r[i] == if i == 0 || name[i - 1] == '-' then UpperChar(name[i]) else LowerChar(name[i])
    ensures (exists i :: 0 <= i < |name| && !IsTokenChar(name[i])) ==> r == name
  {
    if forall i :: 0 <= i < |name| ==> IsTokenChar(name[i]) then Canon(name, true) else name
  }

  /** The first value listed under `key`, or "" when there is none (`url.Values.Get`). */
  function FirstValue(m: map<string, seq<string>>, key: string): (v: string)
    ensures v != "" ==> key in m && m[key] != [] && v == m[key][0]
    ensures key in m && m[key] != [] ==> v == m[key][0]
  {
    if key in m && m[key] != [] then m[key][0] else ""
  }

  /** `Header.Get`: the first value under the canonical form of `name`. */
  function Get(h: Header, name: string): (v: string)
    ensures v != "" ==> CanonicalKey(name) in h && h[CanonicalKey(name)] != [] && v == h[CanonicalKey(name)][0]
    ensures CanonicalKey(name) in h && h[CanonicalKey(name)] != [] ==> v == h[CanonicalKey(name)][0]
    ensures CanonicalKey(name) !in h ==> v == ""
  {
    FirstValue(h, CanonicalKey(name))
  }

}
