/**
 * Dictation: how recognition results are merged into the note being typed,
 * and the two-state record toggle around the browser's speech recognizer.
 */
module Dictation {
  import opened Common

  /**
   * One entry of a recognition event's result list: whether the recognizer has
   * settled on it, and the transcript of its first (most likely) alternative.
   */
  datatype SpeechResult = SpeechResult(isFinal: bool, transcript: string)

  /** Final transcripts of `rs` joined in index order; an interim result adds nothing. */
  function Finals(rs: seq<SpeechResult>): (t: string)
    ensures (forall i :: 0 <= i < |rs| ==> !rs[i].isFinal) ==> t == ""
  {
    if rs == [] then ""
    else
      var last := rs[|rs| - 1];
      var init := rs[..|rs| - 1];
      assert forall i :: 0 <= i < |init| ==> init[i] == rs[i];
      Finals(init) + (if last.isFinal then last.transcript else "")
  }

  /**
   * What the result handler gathers: the final transcripts from `resultIndex`
   * to the end; nothing when no result from there on is final.
   */
  function FinalsFrom(rs: seq<SpeechResult>, resultIndex: nat): (t: string)
    ensures (forall i :: resultIndex <= i < |rs| ==> !rs[i].isFinal) ==> t == ""
  {
    if resultIndex >= |rs| then ""
    else
      var tail := rs[resultIndex..];
      assert forall i :: 0 <= i < |tail| ==> tail[i] == rs[resultIndex + i];
      Finals(tail)
  }

  /** Gathering walks the results in index order: result `i` comes before everything after it. */
  lemma FinalsFromStep(rs: seq<SpeechResult>, i: nat)
    requires i < |rs|
    ensures FinalsFrom(rs, i) == (if rs[i].isFinal then rs[i].transcript else "") + FinalsFrom(rs, i + 1)
  {
    assert rs[i..] == [rs[i]] + rs[i + 1..];
    FinalsConcat([rs[i]], rs[i + 1..]);
    assert [rs[i]][..0] == [];
    if i + 1 == |rs| {
      assert rs[i + 1..] == [];
    }
  }

  /** Joining is compositional: the results of `a` come before those of `b`. */
  lemma {:induction false} FinalsConcat(a: seq<SpeechResult>, b: seq<SpeechResult>)
    ensures Finals(a + b) == Finals(a) + Finals(b)
  {
    if b == [] {
      assert a + b == a;
    } else {
      var b' := b[..|b| - 1];
      assert (a + b)[..|a + b| - 1] == a + b';
      assert (a + b)[|a + b| - 1] == b[|b| - 1];
      FinalsConcat(a, b');
    }
  }

  /** Interim results never contribute: replacing one by any other interim result changes nothing. */
  lemma {:induction false} FinalsIgnoresInterim(rs: seq<SpeechResult>, i: nat, other: SpeechResult)
    requires i < |rs| && !rs[i].isFinal && !other.isFinal
    ensures Finals(rs[i := other]) == Finals(rs)
  {
    var rs' := rs[i := other];
    assert rs == rs[..i] + [rs[i]] + rs[i + 1..];
    assert rs' == rs[..i] + [other] + rs[i + 1..];
    FinalsConcat(rs[..i] + [rs[i]], rs[i + 1..]);
    FinalsConcat(rs[..i] + [other], rs[i + 1..]);
    FinalsConcat(rs[..i], [rs[i]]);
    FinalsConcat(rs[..i], [other]);
    assert [rs[i]][..0] == [] && [other][..0] == [];
  }

  /** A single final result contributes exactly its transcript. */
  lemma FinalsOfOneFinal(r: SpeechResult)
    requires r.isFinal
    ensures Finals([r]) == r.transcript
  {
    assert [r][..0] == [];
  }

  /**
   * The note after a result event gathered `t`: unchanged when `t` is empty,
   * otherwise the old note, a line break if the old note was not empty, then `t`.
   */
  function MergeNote(current: string, t: string): (r: string)
    ensures |r| >= |current| && r[..|current|] == current
    ensures t == "" ==> r == current
    ensures t != "" ==> |r| == |current| + (if current == "" then 0 else 1) + |t|
                        && r[|r| - |t|..] == t
    ensures t != "" && current != "" ==> r[|current|] == '\n'
  {
    if t == "" then current else current + (if current != "" then "\n" else "") + t
  }

  /** The command a click on the record button sends to the recognizer. */
  datatype Command = Start | Stop

  /**
   * The record toggle. `listening` is the visible "recording" indicator, which
   * only the recognizer's start and end events change; a click reads it to pick
   * a command. Without speech support the button is disabled and nothing happens.
   */
  class Recognizer {
    const supported: bool
    var listening: bool

    constructor (supported: bool)
      ensures this.supported == supported && !listening
    {
      this.supported := supported;
      listening := false;
    }

    /** The recognizer reports that it started listening. */
    method OnStart()
      requires supported
      modifies this
      ensures listening
    {
      listening := true;
    }

    /** The recognizer reports that the session ended. */
    method OnEnd()
      requires supported
      modifies this
      ensures !listening
    {
      listening := false;
    }

    /** A click starts recognition when idle and stops it when listening; it changes no state itself. */
    method Click() returns (cmd: Option<Command>)
      ensures cmd.None? <==> !supported
      ensures cmd == Some(Start) <==> supported && !listening
      ensures cmd == Some(Stop) <==> supported && listening
    {
      if !supported {
        cmd := None;
      } else if !listening {
        cmd := Some(Start);
      } else {
        cmd := Some(Stop);
      }
    }
  }
}
