/**
 * The synchronisation of a join collection with a request list, shared by
 * the recipe update (product quantities) and the workout update (sets and
 * repetitions per exercise).
 */
module ListMerge {

  /** One row of a join collection: the referenced id and its payload. */
  datatype Line<V> = Line(id: int, value: V)

  predicate HasId<V>(lines: seq<Line<V>>, id: int) {
    exists k :: 0 <= k < |lines| && lines[k].id == id
  }

  /** No id occurs twice (the composite key of the join table). */
  predicate UniqueIds<V>(lines: seq<Line<V>>) {
    forall i, j :: 0 <= i < j < |lines| ==> lines[i].id != lines[j].id
  }

  predicate Distinct(xs: seq<int>) {
    forall i, j :: 0 <= i < j < |xs| ==> xs[i] != xs[j]
  }

  function Ids<V>(lines: seq<Line<V>>): (ids: seq<int>)
    ensures |ids| == |lines|
    ensures forall k :: 0 <= k < |lines| ==> ids[k] == lines[k].id
  {
    seq(|lines|, k requires 0 <= k < |lines| => lines[k].id)
  }

  /** FirstOrDefault by id: the first index holding the id, or -1. */
  function IndexOfId<V>(lines: seq<Line<V>>, id: int): (r: int)
    ensures -1 <= r < |lines|
    ensures r == -1 <==> !HasId(lines, id)
    ensures r >= 0 ==> lines[r].id == id && forall k :: 0 <= k < r ==> lines[k].id != id
  {
    if |lines| == 0 then -1
    else if lines[0].id == id then 0
    else
      var r := IndexOfId(lines[1..], id);
      assert forall k :: 1 <= k < |lines| ==> lines[k] == lines[1..][k - 1];
      if r == -1 then -1 else r + 1
  }

  /** The value of the last line carrying the id: a later request line wins. */
  function LastValue<V>(lines: seq<Line<V>>, id: int): V
    requires HasId(lines, id)
  {
    var n := |lines| - 1;
    if lines[n].id == id then lines[n].value
    else
      assert HasId(lines[..n], id) by {
        var k :| 0 <= k < |lines| && lines[k].id == id;
        assert lines[..n][k].id == id;
      }
      LastValue(lines[..n], id)
  }

  /** The existing lines whose id the request still names, in their original order (stated by MergedOrder). */
  function Retained<V>(current: seq<Line<V>>, request: seq<Line<V>>): (r: seq<Line<V>>)
    ensures forall k :: 0 <= k < |r| ==> r[k] in current && HasId(request, r[k].id)
    ensures forall k :: 0 <= k < |current| && HasId(request, current[k].id) ==> current[k] in r
    ensures UniqueIds(current) ==> UniqueIds(r)
    ensures |r| <= |current|
  {
    if |current| == 0 then []
    else
      var rest := Retained(current[1..], request);
      UniqueTail(current);
      assert forall k :: 1 <= k < |current| ==> current[k] == current[1..][k - 1];
      if HasId(request, current[0].id) then
        UniqueCons(current, rest);
        var r := [current[0]] + rest;
        assert forall k :: 1 <= k < |r| ==> r[k] == rest[k - 1];
        r
      else
        rest
  }

  /** The lines whose id is not `id`, in their original order: the join rows a cascade leaves. */
  function WithoutId<V>(lines: seq<Line<V>>, id: int): (r: seq<Line<V>>)
    ensures forall k :: 0 <= k < |r| ==> r[k] in lines && r[k].id != id
    ensures forall k :: 0 <= k < |lines| && lines[k].id != id ==> lines[k] in r
    ensures UniqueIds(lines) ==> UniqueIds(r)
    ensures |r| <= |lines|
  {
    if |lines| == 0 then []
    else
      var rest := WithoutId(lines[1..], id);
      UniqueTail(lines);
      assert forall k :: 1 <= k < |lines| ==> lines[k] == lines[1..][k - 1];
      if lines[0].id != id then
        UniqueCons(lines, rest);
        var r := [lines[0]] + rest;
        assert forall k :: 1 <= k < |r| ==> r[k] == rest[k - 1];
        r
      else
        rest
  }

  lemma UniqueTail<V>(lines: seq<Line<V>>)
    requires lines != []
    ensures UniqueIds(lines) ==> UniqueIds(lines[1..])
  {
    if UniqueIds(lines) {
      forall i, j | 0 <= i < j < |lines[1..]| ensures lines[1..][i].id != lines[1..][j].id {
        assert lines[1..][i] == lines[i + 1] && lines[1..][j] == lines[j + 1];
      }
    }
  }

  /** Putting the head back in front of unique lines drawn from the tail keeps the ids unique. */
  lemma UniqueCons<V>(lines: seq<Line<V>>, rest: seq<Line<V>>)
    requires lines != []
    requires forall q :: 0 <= q < |rest| ==> rest[q] in lines[1..]
    requires UniqueIds(lines[1..]) ==> UniqueIds(rest)
    ensures UniqueIds(lines) ==> UniqueIds([lines[0]] + rest)
  {
    if UniqueIds(lines) {
      UniqueTail(lines);
      forall q | 0 <= q < |rest| ensures rest[q].id != lines[0].id {
        var k :| 0 <= k < |lines[1..]| && lines[1..][k] == rest[q];
        assert lines[k + 1] == rest[q];
      }
      var r := [lines[0]] + rest;
      forall i, j | 0 <= i < j < |r| ensures r[i].id != r[j].id {
        if i > 0 {
          assert r[i] == rest[i - 1] && r[j] == rest[j - 1];
        } else {
          assert r[j] == rest[j - 1];
        }
      }
    }
  }

  /**
   * The ids of the request that are not in `seen`, each once, in the order
   * of their first occurrence in the request (the order MergedOrder states).
   */
  function NewIds<V>(request: seq<Line<V>>, seen: seq<int>): (ids: seq<int>)
    ensures forall x :: x in ids ==> x !in seen && HasId(request, x)
    ensures forall k :: 0 <= k < |request| && request[k].id !in seen ==> request[k].id in ids
    ensures Distinct(ids)
  {
    if |request| == 0 then []
    else
      var n := |request| - 1;
      var prefix := request[..n];
      var last := request[n].id;
      var earlier := NewIds(prefix, seen);
      assert forall k :: 0 <= k < n ==> request[k] == prefix[k];
      assert forall x :: HasId(prefix, x) ==> HasId(request, x) by {
        forall x | HasId(prefix, x) ensures HasId(request, x) {
          var k :| 0 <= k < |prefix| && prefix[k].id == x;
          assert request[k].id == x;
        }
      }
      if last in seen || HasId(prefix, last) then
        earlier
      else
        assert last !in earlier;
        earlier + [last]
  }

  /**
   * The collection after the update, stated declaratively: the retained
   * existing lines first, then the newly named ids, each carrying the value
   * of its last request line.
   */
  function Merged<V>(current: seq<Line<V>>, request: seq<Line<V>>): (m: seq<Line<V>>)
  {
    var r := Retained(current, request);
    var added := NewIds(request, Ids(r));
    seq(|r| + |added|, k requires 0 <= k < |r| + |added| =>
      var id := if k < |r| then r[k].id else added[k - |r|];
      assert HasId(request, id) by {
        if k >= |r| { assert added[k - |r|] in added; }
      }
      Line(id, LastValue(request, id)))
  }

  lemma LastValueSnoc<V>(lines: seq<Line<V>>, line: Line<V>, id: int)
    requires HasId(lines + [line], id)
    ensures line.id != id ==> HasId(lines, id)
    ensures LastValue(lines + [line], id) ==
            (if line.id == id then line.value else LastValue(lines, id))
  {
    var all := lines + [line];
    assert all[..|all| - 1] == lines;
    if line.id != id {
      var k :| 0 <= k < |all| && all[k].id == id;
      assert lines[k].id == id;
    }
  }

  lemma HasIdSnoc<V>(lines: seq<Line<V>>, line: Line<V>, id: int)
    ensures HasId(lines + [line], id) <==> HasId(lines, id) || line.id == id
  {
    var all := lines + [line];
    if HasId(lines, id) {
      var k :| 0 <= k < |lines| && lines[k].id == id;
      assert all[k].id == id;
    }
    if line.id == id {
      assert all[|lines|].id == id;
    }
  }

  lemma NewIdsSnoc<V>(request: seq<Line<V>>, line: Line<V>, seen: seq<int>)
    ensures NewIds(request + [line], seen) ==
            if line.id in seen || HasId(request, line.id) then NewIds(request, seen)
            else NewIds(request, seen) + [line.id]
  {
    var all := request + [line];
    assert all[..|all| - 1] == request;
  }

  /** The state of the working list after the first `i` request lines. */
  ghost predicate MergeState<V>(w: seq<Line<V>>, r: seq<Line<V>>, done: seq<Line<V>>)
  {
    var added := NewIds(done, Ids(r));
    && |w| == |r| + |added|
    && (forall k :: 0 <= k < |r| ==>
          w[k].id == r[k].id &&
          w[k].value == (if HasId(done, r[k].id) then LastValue(done, r[k].id) else r[k].value))
    && (forall k :: |r| <= k < |w| ==>
          w[k].id == added[k - |r|] && HasId(done, w[k].id) && w[k].value == LastValue(done, w[k].id))
  }

  /** One pass of the foreach: update the first line with the id, or append a new one. */
  lemma MergeStep<V>(w: seq<Line<V>>, r: seq<Line<V>>, done: seq<Line<V>>, line: Line<V>)
    requires UniqueIds(r)
    requires MergeState(w, r, done)
    ensures var j := IndexOfId(w, line.id);
            MergeState(if j >= 0 then w[j := line] else w + [line], r, done + [line])
  {
    var j := IndexOfId(w, line.id);
    SnocFacts(done, line);
    if j >= 0 && j < |r| {
      MergeUpdatesRetained(w, r, done, line, j);
    } else if j >= 0 {
      MergeUpdatesAdded(w, r, done, line, j);
    } else {
      MergeAppends(w, r, done, line);
    }
  }

  /** How one more request line changes which ids are named and their last values. */
  lemma SnocFacts<V>(done: seq<Line<V>>, line: Line<V>)
    ensures forall id :: HasId(done + [line], id) <==> HasId(done, id) || line.id == id
    ensures forall id :: HasId(done + [line], id) ==>
              LastValue(done + [line], id) == (if line.id == id then line.value else LastValue(done, id))
  {
    var done' := done + [line];
    forall id | HasId(done', id)
      ensures LastValue(done', id) == (if line.id == id then line.value else LastValue(done, id))
    {
      LastValueSnoc(done, line, id);
    }
    forall id ensures HasId(done', id) <==> HasId(done, id) || line.id == id {
      HasIdSnoc(done, line, id);
    }
  }

  /** The id is one of the retained lines: its value is overwritten and nothing is added. */
  lemma MergeUpdatesRetained<V>(w: seq<Line<V>>, r: seq<Line<V>>, done: seq<Line<V>>, line: Line<V>, j: int)
    requires UniqueIds(r) && MergeState(w, r, done)
    requires 0 <= j < |r| && w[j].id == line.id
    requires forall id :: HasId(done + [line], id) <==> HasId(done, id) || line.id == id
    requires forall id :: HasId(done + [line], id) ==>
               LastValue(done + [line], id) == (if line.id == id then line.value else LastValue(done, id))
    ensures MergeState(w[j := line], r, done + [line])
  {
    var S := Ids(r);
    var added := NewIds(done, S);
    NewIdsSnoc(done, line, S);
    assert line.id in S;
    assert NewIds(done + [line], S) == added;
    forall k | 0 <= k < |r| && k != j ensures r[k].id != line.id {
      assert r[j].id == line.id;
    }
    forall k | |r| <= k < |w| ensures w[k].id != line.id {
      assert added[k - |r|] in added;
    }
  }

  /** The id was added by an earlier request line: its value is overwritten and nothing more is added. */
  lemma MergeUpdatesAdded<V>(w: seq<Line<V>>, r: seq<Line<V>>, done: seq<Line<V>>, line: Line<V>, j: int)
    requires MergeState(w, r, done)
    requires |r| <= j < |w| && w[j].id == line.id
    requires forall id :: HasId(done + [line], id) <==> HasId(done, id) || line.id == id
    requires forall id :: HasId(done + [line], id) ==>
               LastValue(done + [line], id) == (if line.id == id then line.value else LastValue(done, id))
    ensures MergeState(w[j := line], r, done + [line])
  {
    var S := Ids(r);
    var added := NewIds(done, S);
    NewIdsSnoc(done, line, S);
    assert line.id == added[j - |r|];
    assert added[j - |r|] in added;
    assert line.id !in S && HasId(done, line.id);
    assert NewIds(done + [line], S) == added;
    forall k | 0 <= k < |r| ensures r[k].id != line.id {
      assert S[k] == r[k].id;
    }
    forall k | |r| <= k < |w| && k != j ensures w[k].id != line.id {
      assert added[k - |r|] != added[j - |r|];
    }
  }

  /** The id is in no line yet: a new line is appended and its id is added. */
  lemma MergeAppends<V>(w: seq<Line<V>>, r: seq<Line<V>>, done: seq<Line<V>>, line: Line<V>)
    requires MergeState(w, r, done)
    requires !HasId(w, line.id)
    requires forall id :: HasId(done + [line], id) <==> HasId(done, id) || line.id == id
    requires forall id :: HasId(done + [line], id) ==>
               LastValue(done + [line], id) == (if line.id == id then line.value else LastValue(done, id))
    ensures MergeState(w + [line], r, done + [line])
  {
    var S := Ids(r);
    var added := NewIds(done, S);
    NewIdsSnoc(done, line, S);
    assert line.id !in S by {
      forall k | 0 <= k < |r| ensures S[k] != line.id {
        assert w[k].id == r[k].id;
      }
    }
    assert forall x :: x in added ==> HasId(w, x) by {
      forall x | x in added ensures HasId(w, x) {
        var m :| 0 <= m < |added| && added[m] == x;
        assert w[|r| + m].id == x;
      }
    }
    assert line.id !in added;
    assert !HasId(done, line.id);
    assert NewIds(done + [line], S) == added + [line.id];
  }

  /**
   * The update's merge: keep the existing lines the request still names,
   * then walk the request, overwriting the value of a line already present
   * or appending a new one.
   */
  method MergeLines<V>(current: seq<Line<V>>, request: seq<Line<V>>) returns (merged: seq<Line<V>>)
    requires UniqueIds(current)
    ensures merged == Merged(current, request)
  {
    var r := Retained(current, request);
    merged := r;
    var i := 0;
    ghost var done: seq<Line<V>> := [];
    MergeStart(r);
    while i < |request|
      invariant 0 <= i <= |request|
      invariant done == request[..i]
      invariant MergeState(merged, r, done)
    {
      var line := request[i];
      var j := IndexOfId(merged, line.id);
      MergeStep(merged, r, done, line);
      if j >= 0 {
        merged := merged[j := line];
      } else {
        merged := merged + [line];
      }
      PrefixSnoc(request, i);
      done := done + [line];
      i := i + 1;
    }
    PrefixAll(request);
    MergeStateIsMerged(merged, current, request);
  }

  lemma PrefixSnoc<T>(s: seq<T>, i: int)
    requires 0 <= i < |s|
    ensures s[..i] + [s[i]] == s[..i + 1]
  {
  }

  lemma PrefixAll<T>(s: seq<T>)
    ensures s[..|s|] == s
  {
  }

  /** Before the walk the working list is the retained lines, and nothing has been added. */
  lemma MergeStart<V>(r: seq<Line<V>>)
    ensures MergeState<V>(r, r, [])
  {
    var none: seq<Line<V>> := [];
    assert NewIds(none, Ids(r)) == [];
  }

  /** Once the whole request has been walked, the working list is the declarative result. */
  lemma MergeStateIsMerged<V>(w: seq<Line<V>>, current: seq<Line<V>>, request: seq<Line<V>>)
    requires MergeState(w, Retained(current, request), request)
    ensures w == Merged(current, request)
  {
    var r := Retained(current, request);
    var m := Merged(current, request);
    assert |w| == |m|;
    forall k | 0 <= k < |w| ensures w[k] == m[k] {
      if k < |r| {
        assert HasId(request, r[k].id);
      }
    }
  }

  /** The merged collection names exactly the ids of the request. */
  lemma MergedIds<V>(current: seq<Line<V>>, request: seq<Line<V>>, id: int)
    ensures HasId(Merged(current, request), id) <==> HasId(request, id)
  {
    var m := Merged(current, request);
    var r := Retained(current, request);
    var added := NewIds(request, Ids(r));
    if HasId(request, id) {
      var k :| 0 <= k < |request| && request[k].id == id;
      if id in Ids(r) {
        var q :| 0 <= q < |r| && Ids(r)[q] == id;
        assert m[q].id == id;
      } else {
        assert id in added;
        var q :| 0 <= q < |added| && added[q] == id;
        assert m[|r| + q].id == id;
      }
    }
    if HasId(m, id) {
      var k :| 0 <= k < |m| && m[k].id == id;
      if k >= |r| { assert added[k - |r|] in added; }
    }
  }

  /** Each id occurs once in the merged collection. */
  lemma MergedUnique<V>(current: seq<Line<V>>, request: seq<Line<V>>)
    requires UniqueIds(current)
    ensures UniqueIds(Merged(current, request))
  {
    var m := Merged(current, request);
    var r := Retained(current, request);
    var added := NewIds(request, Ids(r));
    forall i, j | 0 <= i < j < |m| ensures m[i].id != m[j].id {
      if j < |r| {
      } else if i < |r| {
        assert added[j - |r|] in added;
        assert Ids(r)[i] == r[i].id;
      } else {
      }
    }
  }

  /** Every line carries the value of the last request line with its id. */
  lemma MergedValues<V>(current: seq<Line<V>>, request: seq<Line<V>>, k: int)
    requires 0 <= k < |Merged(current, request)|
    ensures HasId(request, Merged(current, request)[k].id)
    ensures Merged(current, request)[k].value == LastValue(request, Merged(current, request)[k].id)
  {
    var r := Retained(current, request);
    var added := NewIds(request, Ids(r));
    if k >= |r| { assert added[k - |r|] in added; }
  }

  /**
   * The retained existing lines come first, in their original order, and
   * the new ids follow in the order the request first names them.
   */
  lemma MergedOrder<V>(current: seq<Line<V>>, request: seq<Line<V>>)
    ensures var r := Retained(current, request);
            Ids(Merged(current, request)) == Ids(r) + NewIds(request, Ids(r))
  {
    var r := Retained(current, request);
    var m := Merged(current, request);
    var ids := Ids(r) + NewIds(request, Ids(r));
    assert |Ids(m)| == |ids|;
    forall k | 0 <= k < |ids| ensures Ids(m)[k] == ids[k] {
    }
  }
}
