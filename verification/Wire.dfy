/**
 * What one connection writes: the thread that answers requests and the thread that notifies each record a
 * status first and write the line for it later, so a line can be overtaken by a newer one.
 */
module Wire {
  import opened Chain

  /** A status of a script hash, as a response or a notification carries it. */
  type Line = (ScriptHash, Option<string>)

  /**
   * `reply` is a recorded but unwritten response, `notes` the recorded but unwritten notifications in order,
   * `wire` the last line written for each script hash. `crossed` is bookkeeping: the script hashes last
   * recorded while the other thread still held an unwritten line for them.
   */
  datatype Outgoing =
    Outgoing(reply: Option<Line>, notes: seq<Line>, wire: map<ScriptHash, Option<string>>, crossed: set<ScriptHash>)

  const NOTHING_SENT := Outgoing(None, [], map[], {})

  function ReplyFor(o: Outgoing, sh: ScriptHash): Option<Option<string>> {
    if o.reply.Some? && o.reply.value.0 == sh then Some(o.reply.value.1) else None
  }

  /** The last unwritten notification for a script hash. */
  function NoteFor(notes: seq<Line>, sh: ScriptHash): Option<Option<string>> {
    if notes == [] then None
    else
      var last := notes[|notes| - 1];
      if last.0 == sh then Some(last.1) else NoteFor(notes[..|notes| - 1], sh)
  }

  /** The request thread has recorded a status. */
  function Answered(o: Outgoing, sh: ScriptHash, status: Option<string>): Outgoing {
    o.(reply := Some((sh, status)),
       crossed := if NoteFor(o.notes, sh).Some? then o.crossed + {sh} else o.crossed - {sh})
  }

  /** The notification thread has recorded a status that moved. */
  function Noted(o: Outgoing, sh: ScriptHash, status: Option<string>): Outgoing {
    o.(notes := o.notes + [(sh, status)],
       crossed := if ReplyFor(o, sh).Some? then o.crossed + {sh} else o.crossed - {sh})
  }

  function ReplyWritten(o: Outgoing): Outgoing
    requires o.reply.Some?
  {
    o.(reply := None, wire := o.wire[o.reply.value.0 := o.reply.value.1])
  }

  function NoteWritten(o: Outgoing): Outgoing
    requires o.notes != []
  {
    o.(notes := o.notes[1..], wire := o.wire[o.notes[0].0 := o.notes[0].1])
  }

  predicate AllWritten(o: Outgoing) {
    o.reply.None? && o.notes == []
  }

  /** Unless the threads have crossed, the record is in the one unwritten line, or else on the wire. */
  predicate InStep(o: Outgoing, sh: ScriptHash, record: Option<string>) {
    sh !in o.crossed ==>
      var r, n := ReplyFor(o, sh), NoteFor(o.notes, sh);
      if r.Some? then n.None? && r.value == record
      else if n.Some? then n.value == record
      else sh in o.wire && o.wire[sh] == record
  }

  lemma NoteForSnoc(notes: seq<Line>, line: Line, sh: ScriptHash)
    ensures NoteFor(notes + [line], sh) == if line.0 == sh then Some(line.1) else NoteFor(notes, sh)
  {
    assert (notes + [line])[..|notes|] == notes;
  }

  lemma {:induction false} NoteForTail(notes: seq<Line>, sh: ScriptHash)
    requires notes != []
    ensures NoteFor(notes, sh) == if NoteFor(notes[1..], sh).Some? then NoteFor(notes[1..], sh)
                                  else if notes[0].0 == sh then Some(notes[0].1) else None
  {
    var last := |notes| - 1;
    if notes[1..] == [] {
      assert notes[..last] == [];
    } else if notes[last].0 != sh {
      NoteForTail(notes[..last], sh);
      assert notes[..last][1..] == notes[1..][..last - 1];
    }
  }

  lemma AnsweredInStep(o: Outgoing, sh: ScriptHash, status: Option<string>, other: ScriptHash, record: Option<string>)
    requires o.reply.None?
    ensures InStep(Answered(o, sh, status), sh, status)
    ensures other != sh && InStep(o, other, record) ==> InStep(Answered(o, sh, status), other, record)
  {
  }

  lemma NotedInStep(o: Outgoing, sh: ScriptHash, status: Option<string>, other: ScriptHash, record: Option<string>)
    ensures InStep(Noted(o, sh, status), sh, status)
    ensures other != sh && InStep(o, other, record) ==> InStep(Noted(o, sh, status), other, record)
  {
    hide NoteFor;
    NoteForSnoc(o.notes, (sh, status), sh);
    NoteForSnoc(o.notes, (sh, status), other);
  }

  lemma ReplyWrittenInStep(o: Outgoing, sh: ScriptHash, record: Option<string>)
    requires o.reply.Some? && InStep(o, sh, record)
    ensures InStep(ReplyWritten(o), sh, record)
  {
  }

  lemma NoteWrittenInStep(o: Outgoing, sh: ScriptHash, record: Option<string>)
    requires o.notes != [] && InStep(o, sh, record)
    ensures InStep(NoteWritten(o), sh, record)
  {
    hide NoteFor;
    NoteForTail(o.notes, sh);
  }
}
