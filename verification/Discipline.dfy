/** Journals every entry of which was allowed by the entries before it. A rule says what may follow
    what; if each handler's writes obey it one after the other, so does every journal of every run,
    whatever crashes. */
module Discipline {
  import opened Journal
  import opened Agent

  /** Whether an entry may be appended to a journal. */
  type Rule = (Log, Entry) -> bool

  predicate Obeyed(j: Log, rule: Rule) {
    j == [] || (Obeyed(j[..|j| - 1], rule) && rule(j[..|j| - 1], j[|j| - 1]))
  }

  /** Every write of `ws`, made after `j`, keeps to the rule. */
  predicate Fine(j: Log, ws: seq<Write>, rule: Rule) {
    ws == [] || (&& Fine(j, ws[..|ws| - 1], rule)
                 && (ws[|ws| - 1].Append? ==> rule(j + Entries(ws[..|ws| - 1]), ws[|ws| - 1].entry)))
  }

  lemma {:induction false} FineKeeps(j: Log, ws: seq<Write>, rule: Rule)
    requires Obeyed(j, rule) && Fine(j, ws, rule)
    ensures Obeyed(j + Entries(ws), rule)
  {
    if ws == [] {
      assert j + Entries(ws) == j;
    } else {
      FineKeeps(j, ws[..|ws| - 1], rule);
      if ws[|ws| - 1].Append? {
        var whole := j + Entries(ws);
        assert whole[..|whole| - 1] == j + Entries(ws[..|ws| - 1]);
      } else {
        assert Entries(ws) == Entries(ws[..|ws| - 1]);
      }
    }
  }

  lemma {:induction false} FinePrefix(j: Log, ws: seq<Write>, k: nat, rule: Rule)
    requires Fine(j, ws, rule) && k <= |ws|
    ensures Fine(j, ws[..k], rule)
  {
    if k == |ws| {
      assert ws[..k] == ws;
    } else {
      FinePrefix(j, ws[..|ws| - 1], k, rule);
      assert ws[..|ws| - 1][..k] == ws[..k];
    }
  }

  lemma {:induction false} FineConcat(j: Log, a: seq<Write>, b: seq<Write>, rule: Rule)
    requires Fine(j, a, rule) && Fine(j + Entries(a), b, rule)
    ensures Fine(j, a + b, rule)
  {
    if b == [] {
      assert a + b == a;
    } else {
      var b' := b[..|b| - 1];
      FineConcat(j, a, b', rule);
      assert (a + b)[..|a + b| - 1] == a + b';
      EntriesConcat(a, b');
      assert j + Entries(a + b') == (j + Entries(a)) + Entries(b');
    }
  }

  lemma {:induction false} OneWrite(j: Log, e: Entry, rule: Rule)
    requires rule(j, e)
    ensures Fine(j, [Append(e)], rule) && j + Entries([Append(e)]) == j + [e]
  {
    assert [Append(e)][..0] == [];
    assert j + Entries([]) == j;
  }

  /** What every action keeps to on its own, whole runs keep to, with any number of crashes. */
  lemma {:induction false} ObeyedAlways(events: seq<Event>, rule: Rule)
    requires forall n :: 0 <= n < |events| ==>
               var t := After(events[..n]);
               Obeyed(t.d.journal, rule) ==> Fine(t.d.journal, Do(t, events[n].action).writes, rule)
    ensures Obeyed(After(events).d.journal, rule)
  {
    hide Do;
    if events != [] {
      var n := |events| - 1;
      var before, ev := events[..n], events[n];
      forall k | 0 <= k < |before|
        ensures var t := After(before[..k]); Obeyed(t.d.journal, rule) ==> Fine(t.d.journal, Do(t, before[k].action).writes, rule)
      {
        assert before[..k] == events[..k];
      }
      ObeyedAlways(before, rule);
      var t := After(before);
      var made := Made(t, ev);
      FinePrefix(t.d.journal, Do(t, ev.action).writes, |made|, rule);
      FineKeeps(t.d.journal, made, rule);
      JournalAfter(t.d, made);
    }
  }
}
