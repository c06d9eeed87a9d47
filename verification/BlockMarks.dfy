/** What one line of a provider stream says about blocks and about the end, read off the line
    alone, and when a body of such lines leaves a block unstopped. */
module BlockMarks {
  import opened Base
  import opened SseGrammar
  import opened Decoders
  import opened Canonical
  import opened DecodeContract
  import opened StreamDriver
  import opened StreamTheorems

  /** Does the line open a block, close every open one, mark the end of the stream? */
  datatype Mark = Mark(opens: bool, finishes: bool, terminates: bool)

  const NO_MARK := Mark(false, false, false)

  /** Some line opens a block and neither it nor a later one closes. */
  ghost predicate Dangles(marks: seq<Mark>) {
    exists i :: 0 <= i < |marks| && OpensForGood(marks, i)
  }

  ghost predicate OpensForGood(marks: seq<Mark>, i: nat)
    requires i < |marks|
  {
    marks[i].opens && forall j :: i <= j < |marks| ==> !marks[j].finishes
  }

  predicate Terminates(marks: seq<Mark>) {
    exists m <- marks :: m.terminates
  }

  lemma {:induction false} DanglesSnoc(marks: seq<Mark>, m: Mark)
    ensures Dangles(marks + [m]) <==> !m.finishes && (m.opens || Dangles(marks))
    ensures Terminates(marks + [m]) <==> Terminates(marks) || m.terminates
  {
    var all, n := marks + [m], |marks|;
    assert all[n] == m && forall i :: 0 <= i < n ==> all[i] == marks[i];
    if Dangles(all) {
      var i :| 0 <= i < |all| && OpensForGood(all, i);
      assert !all[n].finishes;
      assert i < n ==> OpensForGood(marks, i);
    }
    if !m.finishes && m.opens {
      assert OpensForGood(all, n);
    }
    if !m.finishes && Dangles(marks) {
      var i :| 0 <= i < n && OpensForGood(marks, i);
      assert OpensForGood(all, i);
    }
  }

  /** The decode state says what the marks of the lines so far say. */
  ghost predicate Tracks(s: DecodeState, marks: seq<Mark>) {
    (s.open != map[] <==> Dangles(marks)) && (s.terminated <==> Terminates(marks))
  }

  /** One line's step keeps the state and the marks together. */
  lemma {:induction false} TracksSnoc(s: DecodeState, s': DecodeState, marks: seq<Mark>, m: Mark)
    requires Tracks(s, marks)
    requires s'.open != map[] <==> !m.finishes && (m.opens || s.open != map[])
    requires s'.terminated <==> s.terminated || m.terminates
    ensures Tracks(s', marks + [m])
  {
    DanglesSnoc(marks, m);
  }

  lemma {:induction false} FreshTracks()
    ensures Tracks(FRESH, [])
  {
  }

  /** A trace is balanced exactly when the body dropped, or no line marked the end, or no line
      opened a block for good. */
  lemma {:induction false} MarkedBalance(
    framing: Framing, decode: Decode, inv: DecodeState -> bool, sample: Sample, body: seq<BodyItem>, marks: seq<Mark>)
    requires Agrees(decode, inv) && Tracks(FinalState(framing, decode, body), marks)
    ensures Balanced(EagerTrace(framing, decode, sample, body))
       <==> Drop in body || !Terminates(marks) || !Dangles(marks)
  {
    hide FinalState, EagerTrace, Agrees, Dangles, Terminates;
    BalancedIff(framing, decode, inv, sample, body);
  }

  lemma {:induction false} DecodeAllSnoc(decode: Decode, frames: seq<Frame>, s: DecodeState)
    requires frames != []
    ensures DecodeAll(decode, frames, s).1 == decode(Last(frames), DecodeAll(decode, Front(frames), s).1).1
  {
    assert frames == Front(frames) + [Last(frames)];
    DecodeAllAppend(decode, Front(frames), [Last(frames)], s);
    DecodeAllOne(decode, Last(frames), DecodeAll(decode, Front(frames), s).1);
  }
}
