/** The connections seen as queues of leg ids: how each of them stays sorted while
    together they hold every outstanding leg exactly once. */
module Lines {

  /** Line w belongs to worker w: its ids are outstanding, were given to w and increase. */
  ghost predicate LineOk(line: seq<nat>, w: nat, next: nat, owner: seq<nat>) {
    && (forall j :: 0 <= j < |line| ==> next <= line[j] < |owner|)
    && (forall j :: 0 <= j < |line| ==> owner[line[j]] == w)
    && (forall i, j :: 0 <= i < j < |line| ==> line[i] < line[j])
  }

  /** Every line is in order and every outstanding leg is on the line of its owner. */
  ghost predicate LinesOk(lines: seq<seq<nat>>, next: nat, owner: seq<nat>) {
    && next <= |owner|
    && (forall w :: 0 <= w < |lines| ==> LineOk(lines[w], w, next, owner))
    && (forall k :: next <= k < |owner| ==> owner[k] < |lines| && k in lines[owner[k]])
  }

  /** A line holds something only while something is outstanding. */
  lemma {:induction false} Outstanding(line: seq<nat>, w: nat, next: nat, owner: seq<nat>)
    requires LineOk(line, w, next, owner)
    ensures line != [] ==> next < |owner|
  {
    if line != [] {
      assert next <= line[0] < |owner|;
    }
  }

  /** A leg given to worker w joins the back of its line. */
  lemma Join(lines: seq<seq<nat>>, next: nat, owner: seq<nat>, w: nat)
    requires LinesOk(lines, next, owner) && w < |lines|
    ensures LinesOk(lines[w := lines[w] + [|owner|]], next, owner + [w])
  {
    var lines' := lines[w := lines[w] + [|owner|]];
    var owner' := owner + [w];
    forall v | 0 <= v < |lines|
      ensures LineOk(lines'[v], v, next, owner')
    {
      assert LineOk(lines[v], v, next, owner);
    }
    forall k | next <= k < |owner'|
      ensures owner'[k] < |lines'| && k in lines'[owner'[k]]
    {
      if k < |owner| {
        assert k in lines[owner[k]];
      } else {
        assert lines'[w][|lines[w]|] == k;
      }
    }
  }

  /** The next leg in order is at the front of its line. */
  lemma NextIsFirst(lines: seq<seq<nat>>, next: nat, owner: seq<nat>)
    requires LinesOk(lines, next, owner) && next < |owner|
    ensures owner[next] < |lines| && lines[owner[next]] != [] && lines[owner[next]][0] == next
  {
    var line := lines[owner[next]];
    assert LineOk(line, owner[next], next, owner);
    var j :| 0 <= j < |line| && line[j] == next;
  }

  /** A leg is on one line only, and only once. */
  lemma OnePlace(lines: seq<seq<nat>>, next: nat, owner: seq<nat>, w: nat, i: nat, v: nat, j: nat)
    requires LinesOk(lines, next, owner)
    requires w < |lines| && i < |lines[w]| && v < |lines| && j < |lines[v]|
    requires lines[w][i] == lines[v][j]
    ensures w == v && i == j
  {
    assert LineOk(lines[w], w, next, owner);
    assert LineOk(lines[v], v, next, owner);
  }

  /** Different places hold different legs. */
  lemma DistinctPlaces(lines: seq<seq<nat>>, next: nat, owner: seq<nat>, w: nat, i: nat, v: nat, j: nat)
    requires LinesOk(lines, next, owner)
    requires w < |lines| && i < |lines[w]| && v < |lines| && j < |lines[v]|
    requires w != v || i != j
    ensures lines[w][i] != lines[v][j]
  {
    assert LineOk(lines[w], w, next, owner);
    assert LineOk(lines[v], v, next, owner);
  }

  /** When the next leg is delivered it leaves the front of its line. */
  lemma Leave(lines: seq<seq<nat>>, next: nat, owner: seq<nat>, w: nat)
    requires LinesOk(lines, next, owner)
    requires w < |lines| && lines[w] != [] && lines[w][0] == next
    ensures LinesOk(lines[w := lines[w][1..]], next + 1, owner)
  {
    var lines' := lines[w := lines[w][1..]];
    assert LineOk(lines[w], w, next, owner);
    forall v | 0 <= v < |lines|
      ensures LineOk(lines'[v], v, next + 1, owner)
    {
      assert LineOk(lines[v], v, next, owner);
      if v != w {
        assert forall j :: 0 <= j < |lines[v]| ==> lines[v][j] != next;
      }
    }
    forall k | next + 1 <= k < |owner|
      ensures owner[k] < |lines'| && k in lines'[owner[k]]
    {
      assert k in lines[owner[k]];
      if owner[k] == w {
        var j :| 0 <= j < |lines[w]| && lines[w][j] == k;
        assert lines'[w][j - 1] == k;
      }
    }
  }

  /** Between the next leg and the one behind it on its line, no leg was given to its worker. */
  lemma {:induction false} FirstGap(lines: seq<seq<nat>>, next: nat, owner: seq<nat>, w: nat)
    requires LinesOk(lines, next, owner) && w < |lines| && lines[w] != [] && lines[w][0] == next
    ensures
      var second := if |lines[w]| > 1 then lines[w][1] else |owner|;
      next < second <= |owner| && forall j :: next < j < second ==> owner[j] != w
  {
    var line := lines[w];
    assert LineOk(line, w, next, owner);
    var second := if |line| > 1 then line[1] else |owner|;
    forall j | next < j < |owner| && owner[j] == w
      ensures second <= j
    {
      var i :| 0 <= i < |line| && line[i] == j;
      assert i >= 1;
    }
  }

  // ---------------------------------------------------------------- counting

  /** The n numbers from `lo` on. */
  ghost function Interval(lo: nat, n: nat): (ids: set<nat>)
    ensures |ids| == n
    ensures forall i :: i in ids <==> lo <= i < lo + n
  {
    if n == 0 then {} else Interval(lo, n - 1) + {lo + n - 1}
  }

  /** The part of the interval found on lines before n. */
  ghost function OnLines(lines: seq<seq<nat>>, n: nat, ids: set<nat>): set<nat>
    requires n <= |lines|
  {
    set k | k in ids && exists v :: 0 <= v < n && k in lines[v]
  }

  /** The given ids that are on a line. */
  ghost function Common(line: seq<nat>, ids: set<nat>): set<nat> {
    set k | k in ids && k in line
  }

  lemma {:induction false} SeqSetSize(line: seq<nat>, ids: set<nat>)
    ensures |Common(line, ids)| <= |line|
  {
    if line == [] {
      assert Common(line, ids) == {};
    } else {
      var front, last := line[..|line| - 1], line[|line| - 1];
      SeqSetSize(front, ids);
      var a := Common(line, ids);
      var b := Common(front, ids);
      assert a <= b + {last};
      UnionSize(a, b, {last});
    }
  }

  lemma {:induction false} SubsetSize(a: set<nat>, b: set<nat>)
    requires a <= b
    ensures |a| <= |b|
  {
    assert b == a + (b - a);
  }

  lemma {:induction false} UnionSize(a: set<nat>, b: set<nat>, c: set<nat>)
    requires a <= b + c
    ensures |a| <= |b| + |c|
  {
    SubsetSize(a, b + c);
    SubsetSize(c - b, c);
    assert b + c == b + (c - b);
  }

  /** With at most `room` ids to a line, but only one of interest on line `own`, the lines
      before n hold few of the ids. */
  lemma {:induction false} CountLines(lines: seq<seq<nat>>, n: nat, ids: set<nat>, room: nat, own: nat)
    requires n <= |lines|
    requires forall v :: 0 <= v < |lines| ==> |lines[v]| <= room
    requires own < |lines| && |Common(lines[own], ids)| <= 1
    ensures |OnLines(lines, n, ids)| <= (if own < n then 1 + (n - 1) * room else n * room)
  {
    if n == 0 {
      assert OnLines(lines, n, ids) == {};
    } else {
      CountLines(lines, n - 1, ids, room, own);
      var here := Common(lines[n - 1], ids);
      var all := OnLines(lines, n, ids);
      assert all <= OnLines(lines, n - 1, ids) + here;
      UnionSize(all, OnLines(lines, n - 1, ids), here);
      SeqSetSize(lines[n - 1], ids);
      assert (n - 1) * room + room == n * room;
      assert n >= 2 ==> (n - 2) * room + room == (n - 1) * room;
    }
  }

  /** A leg at the front of a line is ahead of the sequencer by at most what the other
      lines can hold. */
  lemma {:induction false} Window(lines: seq<seq<nat>>, next: nat, owner: seq<nat>, room: nat, w: nat)
    requires LinesOk(lines, next, owner)
    requires forall v :: 0 <= v < |lines| ==> |lines[v]| <= room
    requires w < |lines| && lines[w] != []
    ensures next <= lines[w][0] <= next + (|lines| - 1) * room
  {
    var k := lines[w][0];
    assert LineOk(lines[w], w, next, owner);
    var ids := Interval(next, k - next + 1);
    var mine := Common(lines[w], ids);
    assert mine <= {k} by {
      forall i | i in mine
        ensures i == k
      {
        var j :| 0 <= j < |lines[w]| && lines[w][j] == i;
      }
    }
    SubsetSize(mine, {k});
    CountLines(lines, |lines|, ids, room, w);
    assert ids <= OnLines(lines, |lines|, ids) by {
      forall i | i in ids
        ensures i in OnLines(lines, |lines|, ids)
      {
        assert i in lines[owner[i]];
      }
    }
    SubsetSize(ids, OnLines(lines, |lines|, ids));
  }
}
