/** Shared vocabulary of the backend: record ids, optional request fields,
    the reply codes the handlers answer with, the few string operations
    (JavaScript's trim, toLowerCase and startsWith) the handlers rely on, and
    the newest-first scan behind the `sort({createdAt: -1})` listings. */
module Common {

  /** A document id. The store issues ids from a counter, so a larger id is a
      newer document; ordering by id stands for ordering by `createdAt`. */
  type Id = nat

  /** A request or document field that may be undefined. */
  datatype Option<+T> = None | Some(value: T) {
    function GetOr(default: T): T {
      match this
      case Some(v) => v
      case None => default
    }
  }

  /** The HTTP status a handler answers with. */
  datatype Code = Ok | Created | BadRequest | Unauthorized | NotFound | ServerError

  /** JavaScript truthiness of an optional string: defined and not empty. */
  predicate Truthy(s: Option<string>) {
    s.Some? && s.value != ""
  }

  /** JavaScript truthiness of an optional number: defined and not zero. */
  predicate TruthyNumber(n: Option<int>) {
    n.Some? && n.value != 0
  }

  /** JavaScript `s.startsWith(p)`. */
  predicate HasPrefix(s: string, p: string) {
    |p| <= |s| && s[..|p|] == p
  }

  /** The code points `String.prototype.trim` removes: WhiteSpace and
      LineTerminator of ECMAScript. */
  predicate IsWhite(c: char) {
    c as int in {9, 10, 11, 12, 13, 32, 160, 5760, 8192, 8193, 8194, 8195, 8196, 8197,
                 8198, 8199, 8200, 8201, 8202, 8232, 8233, 8239, 8287, 12288, 65279}
  }

  function TrimStart(s: string): (r: string)
    ensures |r| <= |s| && r == s[|s| - |r|..]
    ensures r == [] || !IsWhite(r[0])
    ensures forall i :: 0 <= i < |s| - |r| ==> IsWhite(s[i])
  {
    if s != [] && IsWhite(s[0]) then TrimStart(s[1..]) else s
  }

  function TrimEnd(s: string): (r: string)
    ensures |r| <= |s| && r == s[..|r|]
    ensures r == [] || !IsWhite(r[|r| - 1])
    ensures forall i :: |r| <= i < |s| ==> IsWhite(s[i])
  {
    if s != [] && IsWhite(s[|s| - 1]) then TrimEnd(s[..|s| - 1]) else s
  }

  /** JavaScript `s.trim()`: the longest slice of `s` that neither starts nor
      ends with white space. */
  function Trim(s: string): (r: string)
    ensures |r| <= |s| - Leading(s) && r == s[Leading(s)..Leading(s) + |r|]
    ensures forall i :: 0 <= i < Leading(s) || Leading(s) + |r| <= i < |s| ==> IsWhite(s[i])
    ensures r == [] || (!IsWhite(r[0]) && !IsWhite(r[|r| - 1]))
  {
    TrimEnd(TrimStart(s))
  }

  /** How many white code points `s` starts with. */
  function Leading(s: string): (n: nat)
    ensures n <= |s|
  {
    |s| - |TrimStart(s)|
  }

  /** Trimming twice is trimming once. */
  lemma TrimIdempotent(s: string)
    ensures Trim(Trim(s)) == Trim(s)
  {
    var r := Trim(s);
    assert TrimStart(r) == r;
    assert TrimEnd(r) == r;
  }

  function LowerChar(c: char): (r: char)
    ensures 'A' <= c <= 'Z' ==> 'a' <= r <= 'z' && r as int == c as int + 32
    ensures !('A' <= c <= 'Z') ==> r == c
  {
    if 'A' <= c <= 'Z' then (c as int + 32) as char else c
  }

  /** JavaScript `s.toLowerCase()` on the Latin capitals. */
  function ToLower(s: string): (r: string)
    ensures |r| == |s|
    ensures forall i :: 0 <= i < |s| ==> r[i] == LowerChar(s[i])
    ensures forall i :: 0 <= i < |r| ==> !('A' <= r[i] <= 'Z')
  {
    seq(|s|, i requires 0 <= i < |s| => LowerChar(s[i]))
  }

  /** Lower-casing twice is lower-casing once. */
  lemma ToLowerIdempotent(s: string)
    ensures ToLower(ToLower(s)) == ToLower(s)
  {
  }

  /** The ids of the documents of `m` that `keep` accepts, newest first (the
      store issues ids in creation order, so this is `sort({createdAt: -1})`). */
  method NewestFirst<T>(m: map<Id, T>, bound: nat, keep: T -> bool) returns (ids: seq<Id>)
    requires forall k :: k in m ==> k < bound
    ensures forall i :: 0 <= i < |ids| ==> ids[i] in m && keep(m[ids[i]])
    ensures forall k :: k in m && keep(m[k]) ==> k in ids
    ensures forall i, j :: 0 <= i < j < |ids| ==> ids[i] > ids[j]
  {
    ids := [];
    var n := bound;
    while n > 0
      invariant n <= bound
      invariant forall i :: 0 <= i < |ids| ==> ids[i] in m && keep(m[ids[i]]) && n <= ids[i]
      invariant forall k :: k in m && keep(m[k]) && n <= k ==> k in ids
      invariant forall i, j :: 0 <= i < j < |ids| ==> ids[i] > ids[j]
    {
      n := n - 1;
      if n in m && keep(m[n]) {
        ids := ids + [n];
      }
    }
  }
}
