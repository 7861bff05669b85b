/** Shared vocabulary of the model: document identifiers, optional values, the
    outcome a request handler reports, and the sequence searches that stand for
    the document store's `findOne`/`find` and for `Array.prototype.findIndex`. */
module Common {

  /** A document identifier (an ObjectId of the document store). */
  type Id = nat

  datatype Option<T> = None | Some(value: T)

  /** What a handler answers, one constructor per HTTP status it sends. */
  datatype Response = Ok | Created | BadRequest | Unauthorized | Forbidden | NotFound | ServerError
  {
    function Code(): int {
      match this
      case Ok => 200
      case Created => 201
      case BadRequest => 400
      case Unauthorized => 401
      case Forbidden => 403
      case NotFound => 404
      case ServerError => 500
    }
  }

  /** The index of the first element that satisfies `p`: a collection kept in
      natural (insertion) order answers `findOne` with this element, and
      `findIndex` returns this index (or -1, here None). */
  function FindFirst<T>(s: seq<T>, p: T -> bool): (r: Option<nat>)
    ensures r.Some? ==> r.value < |s| && p(s[r.value])
    ensures r.Some? ==> forall j :: 0 <= j < r.value ==> !p(s[j])
    ensures r.None? <==> forall j :: 0 <= j < |s| ==> !p(s[j])
  {
    if |s| == 0 then None
    else if p(s[0]) then Some(0)
    else
      match FindFirst(s[1..], p)
      case None =>
        assert forall j :: 1 <= j < |s| ==> s[j] == s[1..][j - 1];
        None
      case Some(k) =>
        assert forall j :: 1 <= j < k + 1 ==> s[j] == s[1..][j - 1];
        Some(k + 1)
  }

  /** The first-match index is determined by its description. */
  lemma FindFirstIs<T>(s: seq<T>, p: T -> bool, k: nat)
    requires k < |s| && p(s[k])
    requires forall j :: 0 <= j < k ==> !p(s[j])
    ensures FindFirst(s, p) == Some(k)
  {
  }

  /** Appending an element never changes an existing first match. */
  lemma FindFirstAppend<T>(s: seq<T>, x: T, p: T -> bool)
    ensures FindFirst(s + [x], p) ==
      if FindFirst(s, p).Some? then FindFirst(s, p)
      else if p(x) then Some(|s|)
      else None
  {
    var s' := s + [x];
    assert forall j :: 0 <= j < |s| ==> s'[j] == s[j];
    match FindFirst(s, p)
    case Some(k) => FindFirstIs(s', p, k);
    case None =>
      if p(x) {
        FindFirstIs(s', p, |s|);
      } else {
        assert forall j :: 0 <= j < |s'| ==> !p(s'[j]);
      }
  }

  /** Two sequences on which `p` agrees position by position have the same first match. */
  lemma FindFirstPointwise<T>(s: seq<T>, s': seq<T>, p: T -> bool)
    requires |s| == |s'|
    requires forall j :: 0 <= j < |s| ==> p(s[j]) == p(s'[j])
    ensures FindFirst(s, p) == FindFirst(s', p)
  {
    match FindFirst(s, p)
    case Some(k) => FindFirstIs(s', p, k);
    case None => assert forall j :: 0 <= j < |s'| ==> !p(s'[j]);
  }

  /** The elements of `s` that satisfy `p`, in their order: what `find` with a
      filter returns. */
  function Filter<T>(s: seq<T>, p: T -> bool): (r: seq<T>)
    ensures |r| <= |s|
    ensures forall j :: 0 <= j < |r| ==> p(r[j])
  {
    if |s| == 0 then []
    else
      var rest := Filter(s[1..], p);
      if p(s[0]) then [s[0]] + rest else rest
  }

  lemma {:induction false} FilterConcat<T>(a: seq<T>, b: seq<T>, p: T -> bool)
    ensures Filter(a + b, p) == Filter(a, p) + Filter(b, p)
  {
    if |a| == 0 {
      assert a + b == b;
    } else {
      assert (a + b)[0] == a[0];
      assert (a + b)[1..] == a[1..] + b;
      FilterConcat(a[1..], b, p);
    }
  }

  /** An element survives the filter exactly when it is there and passes. */
  lemma {:induction false} FilterMembers<T>(s: seq<T>, p: T -> bool, x: T)
    ensures x in Filter(s, p) <==> x in s && p(x)
  {
    if |s| > 0 {
      FilterMembers(s[1..], p, x);
      assert s == [s[0]] + s[1..];
    }
  }

  lemma {:induction false} FilterNoMatch<T>(s: seq<T>, p: T -> bool)
    requires forall j :: 0 <= j < |s| ==> !p(s[j])
    ensures Filter(s, p) == []
  {
    if |s| > 0 {
      FilterNoMatch(s[1..], p);
    }
  }

  /** `s` with the element at index `i` deleted (a `deleteOne` of that document). */
  function RemoveAt<T>(s: seq<T>, i: nat): (r: seq<T>)
    requires i < |s|
    ensures |r| == |s| - 1
    ensures forall j :: 0 <= j < i ==> r[j] == s[j]
    ensures forall j :: i <= j < |r| ==> r[j] == s[j + 1]
    ensures multiset(r) == multiset(s) - multiset{s[i]}
  {
    assert s == s[..i] + [s[i]] + s[i + 1..];
    s[..i] + s[i + 1..]
  }

  /** Deleting an element `p` rejects leaves the filtered view as it was. */
  lemma FilterRemoveUnmatched<T>(s: seq<T>, i: nat, p: T -> bool)
    requires i < |s| && !p(s[i])
    ensures Filter(RemoveAt(s, i), p) == Filter(s, p)
  {
    var pre, post := s[..i], s[i + 1..];
    assert s == pre + s[i..];
    assert s[i..][0] == s[i] && s[i..][1..] == post;
    FilterConcat(pre, s[i..], p);
    FilterConcat(pre, post, p);
  }

  /** Deleting the first element `p` accepts drops the head of the filtered view. */
  lemma FilterRemoveFirstMatch<T>(s: seq<T>, i: nat, p: T -> bool)
    requires FindFirst(s, p) == Some(i)
    ensures Filter(s, p) != [] && Filter(s, p)[0] == s[i]
    ensures Filter(RemoveAt(s, i), p) == Filter(s, p)[1..]
  {
    var pre, post := s[..i], s[i + 1..];
    assert s == pre + s[i..];
    assert s[i..][0] == s[i] && s[i..][1..] == post;
    FilterConcat(pre, s[i..], p);
    FilterConcat(pre, post, p);
    FilterNoMatch(pre, p);
  }
}
