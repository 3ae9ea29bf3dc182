/** The high-score table and the entry of a player's initials: MergeHighScore
    (Main.c:866-886) inserts a score into a fixed table of four entries kept in descending
    order, and the editing loop of HighScore (Main.c:907-966) turns joystick samples into
    three letters. */
module HighScores {
  import opened CArith
  import opened Crosshair

  const NumHighScores := 4   // NUM_HIGHSCORES

  /** A table entry (struct HighScore): three letters and a terminating zero, and a score. */
  datatype Entry = Entry(letters: seq<char>, score: int)

  /** The table as `main` leaves it: every score -1, marking an empty slot, and the
      letters zero. */
  function InitialTable(): (t: seq<Entry>)
    ensures |t| == NumHighScores
    ensures forall k :: 0 <= k < |t| ==> t[k].score == -1
  {
    var blank := Entry(['\0', '\0', '\0', '\0'], -1);
    [blank, blank, blank, blank]
  }

  /** The entry MergeHighScore writes: the first three letters and a zero. */
  function NewEntry(letters: seq<char>, score: int): (e: Entry)
    requires |letters| >= 3
    ensures e.score == score && |e.letters| == 4 && e.letters[..3] == letters[..3]
  {
    Entry([letters[0], letters[1], letters[2], '\0'], score)
  }

  /** Scores in descending order, ties allowed. */
  predicate Descending(t: seq<Entry>)
  {
    forall i, j :: 0 <= i < j < |t| ==> t[i].score >= t[j].score
  }

  /** The slot a score goes to: the first entry with a smaller score, or |t| when every
      entry scores at least as much. */
  function FirstBelow(t: seq<Entry>, score: int): (i: nat)
    ensures i <= |t|
    ensures forall k :: 0 <= k < i ==> t[k].score >= score
    ensures i < |t| ==> t[i].score < score
  {
    if t == [] then 0
    else if t[0].score < score then 0
    else 1 + FirstBelow(t[1..], score)
  }

  /** The table after the insertion: the new entry goes into its slot, the entries from
      there on move down one place and the last one falls off; with no slot the table is
      unchanged. */
  function Merged(t: seq<Entry>, e: Entry): (r: seq<Entry>)
    ensures |r| == |t|
    ensures FirstBelow(t, e.score) == |t| ==> r == t
  {
    var i := FirstBelow(t, e.score);
    if i == |t| then t else (t[..i] + [e] + t[i..])[..|t|]
  }

  /** The table after an insertion at slot i, entry by entry. */
  lemma {:induction false} MergedShape(t: seq<Entry>, e: Entry)
    requires FirstBelow(t, e.score) < |t|
    ensures var i := FirstBelow(t, e.score);
            && |Merged(t, e)| == |t|
            && forall k :: 0 <= k < |t| ==>
                 Merged(t, e)[k] == if k < i then t[k] else if k == i then e else t[k - 1]
  {
    var i := FirstBelow(t, e.score);
    var u := t[..i] + [e] + t[i..];
    assert |u| == |t| + 1;
    forall k | 0 <= k < |t|
      ensures u[k] == if k < i then t[k] else if k == i then e else t[k - 1]
    {
      if k > i {
        assert u[k] == t[i..][k - i - 1];
      }
    }
  }

  /** The insertion keeps the table's size and its descending order. */
  lemma {:induction false} MergedStaysDescending(t: seq<Entry>, e: Entry)
    requires Descending(t)
    ensures |Merged(t, e)| == |t|
    ensures Descending(Merged(t, e))
  {
    var i := FirstBelow(t, e.score);
    if i < |t| {
      MergedShape(t, e);
      var r := Merged(t, e);
      forall a, b | 0 <= a < b < |r|
        ensures r[a].score >= r[b].score
      {
        if a < i && b == i {
          assert t[a].score >= e.score;
        } else if a == i && b > i {
          assert t[b - 1].score <= t[i].score;
        }
      }
    }
  }

  /** A score enters a non-empty descending table exactly when it beats the last entry;
      otherwise the table is unchanged. */
  lemma {:induction false} EntersIffBeatsLast(t: seq<Entry>, e: Entry)
    requires Descending(t) && |t| > 0
    ensures FirstBelow(t, e.score) < |t| <==> e.score > t[|t| - 1].score
    ensures e.score <= t[|t| - 1].score ==> Merged(t, e) == t
  {
    var i := FirstBelow(t, e.score);
    if i < |t| {
      assert t[|t| - 1].score <= t[i].score;
    }
  }

  /** When a score enters, the new entry takes its slot, the entries ahead of it stay put
      (an equal score already in the table keeps the higher place), and the table holds the
      same entries as before, plus the new one, minus the last. */
  lemma {:induction false} EntryReplacesLast(t: seq<Entry>, e: Entry)
    requires FirstBelow(t, e.score) < |t|
    ensures var i := FirstBelow(t, e.score);
            && Merged(t, e)[i] == e
            && Merged(t, e)[..i] == t[..i]
            && multiset(Merged(t, e)) + multiset{t[|t| - 1]} == multiset(t) + multiset{e}
  {
    var i := FirstBelow(t, e.score);
    var r := Merged(t, e);
    MergedShape(t, e);
    var u := t[..i] + [e] + t[i..|t| - 1];
    forall k | 0 <= k < |t|
      ensures r[k] == u[k]
    {
      if k > i {
        assert u[k] == t[i..|t| - 1][k - i - 1];
      }
    }
    assert r == u;
    SplitAtLast(t, i);
  }

  /** A table is its entries before slot i, those from i up to the last, and the last. */
  lemma {:induction false} SplitAtLast(t: seq<Entry>, i: int)
    requires 0 <= i < |t|
    ensures multiset(t) == multiset(t[..i]) + multiset(t[i..|t| - 1]) + multiset{t[|t| - 1]}
  {
    assert t == t[..i] + t[i..|t| - 1] + [t[|t| - 1]];
  }

  /** The entry that falls off scores no more than any entry kept: the table holds the best
      four scores. */
  lemma {:induction false} DroppedIsLowest(t: seq<Entry>, e: Entry)
    requires Descending(t) && |t| > 0 && e.score > t[|t| - 1].score
    ensures forall k :: 0 <= k < |t| ==> Merged(t, e)[k].score >= t[|t| - 1].score
  {
    var i := FirstBelow(t, e.score);
    EntersIffBeatsLast(t, e);
    MergedShape(t, e);
    var r := Merged(t, e);
    forall k | 0 <= k < |t|
      ensures r[k].score >= t[|t| - 1].score
    {
      if k > i {
        assert r[k] == t[k - 1];
      } else if k < i {
        assert r[k] == t[k];
      }
    }
  }

  /** The first score saved after start-up heads the table, whatever it is, as long as it
      is not negative. */
  lemma FirstScoreHeadsTable(e: Entry)
    requires e.score >= 0
    ensures Merged(InitialTable(), e) == [e] + InitialTable()[..3]
  {
    assert FirstBelow(InitialTable(), e.score) == 0;
  }

  /** The score handed over: `Score` is an `unsigned long` passed as an `int`, so a score
      of 2^31 or more arrives negative. */
  function Passed(score: int): (r: int)
    requires 0 <= score < TwoTo32
    ensures score < TwoTo32 / 2 ==> r == score
    ensures score >= TwoTo32 / 2 ==> r == score - TwoTo32 && r < 0
  {
    if score < TwoTo32 / 2 then score else score - TwoTo32
  }

  /** A score of 2^31 or more arrives negative and so never enters a table whose slots
      are all at least -1, as the table always is: it is silently lost. */
  lemma {:induction false} HugeScoreLost(t: seq<Entry>, letters: seq<char>, score: int)
    requires forall k :: 0 <= k < |t| ==> t[k].score >= -1
    requires TwoTo32 / 2 <= score < TwoTo32 && |letters| >= 3
    ensures Merged(t, NewEntry(letters, Passed(score))) == t
  {
    assert FirstBelow(t, Passed(score)) == |t|;
  }

  /** The inner loop of MergeHighScore: entries i .. 2 move down one place, the last entry
      is overwritten and entries 0 .. i keep their values. */
  method ShiftDown(highscores: array<Entry>, i: int)
    requires 0 <= i < highscores.Length
    modifies highscores
    ensures forall k :: 0 <= k <= i ==> highscores[k] == old(highscores[k])
    ensures forall k :: i < k < highscores.Length ==> highscores[k] == old(highscores[k - 1])
  {
    var j := highscores.Length - 1;
    while j > i
      invariant i <= j < highscores.Length
      invariant forall k :: 0 <= k <= j ==> highscores[k] == old(highscores[k])
      invariant forall k :: j < k < highscores.Length ==> highscores[k] == old(highscores[k - 1])
    {
      highscores[j] := highscores[j - 1];
      j := j - 1;
    }
  }

  /** MergeHighScore (Main.c:871-886): finds the first entry with a smaller score, shifts
      it and the entries behind it down one place, dropping the last, and writes the new
      entry into the freed slot. */
  method MergeHighScore(highscores: array<Entry>, letters: seq<char>, score: int)
    requires highscores.Length == NumHighScores && |letters| >= 3
    modifies highscores
    ensures highscores[..] == Merged(old(highscores[..]), NewEntry(letters, score))
  {
    ghost var t := highscores[..];
    var i := 0;
    while i < NumHighScores
      invariant 0 <= i <= NumHighScores
      invariant highscores[..] == t
      invariant forall k :: 0 <= k < i ==> t[k].score >= score
    {
      if highscores[i].score < score {
        ShiftDown(highscores, i);
        highscores[i] := NewEntry(letters, score);
        assert FirstBelow(t, score) == i;
        MergedShape(t, NewEntry(letters, score));
        assert highscores[..] == Merged(t, NewEntry(letters, score));
        break;
      }
      i := i + 1;
    }
  }

  /** The initials being entered: three letters and the index of the one being edited. */
  datatype Editor = Editor(letters: seq<char>, index: int)

  /** The editor as HighScore starts it: "AAA", the first letter selected. */
  function InitialEditor(): Editor
  {
    Editor(['A', 'A', 'A'], 0)
  }

  /** Three capital letters and an index into them. */
  predicate Legal(ed: Editor)
  {
    && |ed.letters| == 3 && 0 <= ed.index < 3
    && forall k :: 0 <= k < 3 ==> 'A' <= ed.letters[k] <= 'Z'
  }

  /** A letter moved by `delta`, wrapped once around the alphabet as the source does it. */
  function Wrapped(c: char, delta: int): (r: int)
    ensures 'A' as int <= c as int + delta <= 'Z' as int ==> r == c as int + delta
    ensures r == c as int + delta || r == c as int + delta - 26 || r == c as int + delta + 26
  {
    var l := c as int + delta;
    if l < 'A' as int then 'Z' as int - ('A' as int - l - 1)
    else if l > 'Z' as int then 'A' as int + (l - 'Z' as int - 1)
    else l
  }

  /** One pass of the editing loop (Main.c:941-953) on the sample `cur`, with `prev` the
      one before it: a flick to the right from the centre selects the next letter, a flick
      to the left the previous one, and otherwise the selected letter steps through the
      alphabet by the vertical deflection over 3. */
  function Edited(ed: Editor, cur: Sample, prev: Sample): (r: Editor)
    requires Legal(ed) && OnScreen(cur)
    ensures Legal(r)
    ensures r.letters == ed.letters || r.index == ed.index
    ensures forall k :: 0 <= k < 3 && k != ed.index ==> r.letters[k] == ed.letters[k]
  {
    if CDiv(cur.x - Center, 3) > 0 && prev.x - Center <= 0 then
      if ed.index < 2 then ed.(index := ed.index + 1) else ed
    else if CDiv(cur.x - Center, 3) < 0 && prev.x - Center >= 0 then
      if ed.index > 0 then ed.(index := ed.index - 1) else ed
    else
      var c := ed.letters[ed.index];
      var delta := CDiv(cur.y - Center, 3);
      assert -26 <= delta <= 26;
      ed.(letters := ed.letters[ed.index := Wrapped(c, delta) as char])
  }

  /** The letter step is a rotation of the alphabet: for a step of at most one lap,
      the single wrap of the source lands where counting modulo 26 does. */
  lemma {:induction false} WrappedRotates(c: char, delta: int)
    requires 'A' <= c <= 'Z' && -26 <= delta <= 26
    ensures 'A' as int <= Wrapped(c, delta) <= 'Z' as int
    ensures Wrapped(c, delta) - 'A' as int == (c as int - 'A' as int + delta) % 26
  {
    var l := c as int + delta;
    var m := c as int - 'A' as int + delta;
    if l < 'A' as int {
      assert (m + 26) % 26 == m % 26;
    } else if l > 'Z' as int {
      assert (m - 26) % 26 == m % 26;
    } else {
      assert 0 <= m < 26;
    }
  }

  /** What a pass does, decided by the samples' horizontal positions: the index moves by
      one within [0, 2] on a flick, and otherwise the selected letter rotates by the
      vertical deflection. */
  lemma {:induction false} EditedSpec(ed: Editor, cur: Sample, prev: Sample)
    requires Legal(ed) && OnScreen(cur)
    ensures var r := Edited(ed, cur, prev);
            && (cur.x >= Center + 3 && prev.x <= Center ==>
                  r.letters == ed.letters && r.index == if ed.index < 2 then ed.index + 1 else 2)
            && (cur.x <= Center - 3 && prev.x >= Center ==>
                  r.letters == ed.letters && r.index == if ed.index > 0 then ed.index - 1 else 0)
            && (!(cur.x >= Center + 3 && prev.x <= Center) && !(cur.x <= Center - 3 && prev.x >= Center) ==>
                  r.index == ed.index &&
                  r.letters[ed.index] as int - 'A' as int ==
                    (ed.letters[ed.index] as int - 'A' as int + CDiv(cur.y - Center, 3)) % 26)
  {
    WrappedRotates(ed.letters[ed.index], CDiv(cur.y - Center, 3));
  }

  /** The editor after the passes over `samples`, each compared with the one before it,
      the first with `prev`. */
  function EditedAll(ed: Editor, prev: Sample, samples: seq<Sample>): (r: Editor)
    requires Legal(ed)
    requires forall k :: 0 <= k < |samples| ==> OnScreen(samples[k])
    ensures Legal(r)
    decreases |samples|
  {
    if samples == [] then ed
    else EditedAll(Edited(ed, samples[0], prev), samples[0], samples[1..])
  }

  /** The body of the editing loop (Main.c:941-953) on the sample `data3`, with `data2`
      the one before it. */
  method EditPass(letters: seq<char>, letIdx: int, data3: Sample, data2: Sample)
    returns (letters': seq<char>, letIdx': int)
    requires Legal(Editor(letters, letIdx)) && OnScreen(data3)
    ensures Editor(letters', letIdx') == Edited(Editor(letters, letIdx), data3, data2)
  {
    letters', letIdx' := letters, letIdx;
    if CDiv(data3.x - Center, 3) > 0 && data2.x - Center <= 0 {
      if letIdx' < 2 {
        letIdx' := letIdx' + 1;
      }
    } else if CDiv(data3.x - Center, 3) < 0 && data2.x - Center >= 0 {
      if letIdx' > 0 {
        letIdx' := letIdx' - 1;
      }
    } else {
      var l := letters'[letIdx'] as int + CDiv(data3.y - Center, 3);
      if l < 'A' as int {
        l := 'Z' as int - ('A' as int - l - 1);
      } else if l > 'Z' as int {
        l := 'A' as int + (l - 'Z' as int - 1);
      }
      WrappedRotates(letters'[letIdx'], CDiv(data3.y - Center, 3));
      letters' := letters'[letIdx' := l as char];
    }
  }

  /** The editing loop of HighScore (Main.c:940-965) over the samples read before the
      player asks to finish: the initials it ends with, always three capital letters. */
  method EnterInitials(first: Sample, samples: seq<Sample>) returns (letters: seq<char>)
    requires forall k :: 0 <= k < |samples| ==> OnScreen(samples[k])
    ensures letters == EditedAll(InitialEditor(), first, samples).letters
    ensures |letters| == 3 && forall k :: 0 <= k < 3 ==> 'A' <= letters[k] <= 'Z'
  {
    var letIdx := 0;
    letters := ['A', 'A', 'A'];
    var data2 := first;
    var n := 0;
    while n < |samples|
      invariant 0 <= n <= |samples|
      invariant Legal(Editor(letters, letIdx))
      invariant EditedAll(Editor(letters, letIdx), data2, samples[n..])
                == EditedAll(InitialEditor(), first, samples)
    {
      var data3 := samples[n];
      assert samples[n..][1..] == samples[n + 1..];
      letters, letIdx := EditPass(letters, letIdx, data3, data2);
      data2 := data3;
      n := n + 1;
    }
  }
}
