/** The relay of one streamed chat call (internal/gateway/gateway.go: stream), on the chat endpoint's
    own wire format. The upstream is the sequence of chunks it produces and the error it ends with;
    whether a write fails, whether the client is gone and whether the first-byte budget fired are
    answered by its arguments, whatever they are. */
module Stream {
  import opened Basics
  import opened Pricing
  import Ledger
  import Retry
  import Walk
  import Breaker

  datatype Choice = Choice(content: Option<string>, toolNames: seq<string>)

  datatype Chunk = Chunk(choices: seq<Choice>, usage: Option<Ledger.Usage>)

  /** What reaches the client. Every event carries the model name the client asked for. */
  datatype Write =
    | Headers
    | Unsupported
    | Data(model: string, choices: seq<Choice>, usage: Option<Ledger.Usage>, inline: Option<string>)
    | ErrorEvent
    | DoneEvent

  // ----- what a stream of chunks turns into

  /** A usage-only trailer the client did not ask for. */
  predicate HiddenTrailer(c: Chunk, wantUsage: bool) {
    c.usage.Some? && !wantUsage && |c.choices| == 0
  }

  /** The inline object still to be sent after these chunks. */
  function InlineLeft(cs: seq<Chunk>, inline: Option<string>): Option<string> {
    if |cs| == 0 then inline
    else if |cs[|cs| - 1].choices| > 0 then None
    else InlineLeft(cs[..|cs| - 1], inline)
  }

  function EventOf(c: Chunk, model: string, wantUsage: bool, inline: Option<string>): Write {
    Data(model, c.choices, if wantUsage then c.usage else None, if |c.choices| > 0 then inline else None)
  }

  /** The data events of a stream nobody interrupts. */
  function Relayed(cs: seq<Chunk>, model: string, wantUsage: bool, inline: Option<string>): seq<Write> {
    if |cs| == 0 then []
    else
      var before := cs[..|cs| - 1];
      var c := cs[|cs| - 1];
      if HiddenTrailer(c, wantUsage) then Relayed(before, model, wantUsage, inline)
      else Relayed(before, model, wantUsage, inline) + [EventOf(c, model, wantUsage, InlineLeft(before, inline))]
  }

  lemma RelayedStep(cs: seq<Chunk>, k: nat, model: string, wantUsage: bool, inline: Option<string>)
    requires k < |cs|
    ensures InlineLeft(cs[..k + 1], inline) == if |cs[k].choices| > 0 then None else InlineLeft(cs[..k], inline)
    ensures Relayed(cs[..k + 1], model, wantUsage, inline) ==
      Relayed(cs[..k], model, wantUsage, inline) +
      (if HiddenTrailer(cs[k], wantUsage) then [] else [EventOf(cs[k], model, wantUsage, InlineLeft(cs[..k], inline))])
  {
    assert cs[..k + 1][..k] == cs[..k];
  }

  lemma {:induction false} RelayedPrefix(cs: seq<Chunk>, k: nat, model: string, wantUsage: bool, inline: Option<string>)
    requires k <= |cs|
    ensures Relayed(cs[..k], model, wantUsage, inline) <= Relayed(cs, model, wantUsage, inline)
    decreases |cs| - k
  {
    if k < |cs| {
      RelayedStep(cs, k, model, wantUsage, inline);
      RelayedPrefix(cs, k + 1, model, wantUsage, inline);
    } else {
      assert cs[..k] == cs;
    }
  }

  lemma NextEvent(cs: seq<Chunk>, k: nat, model: string, wantUsage: bool, inline: Option<string>)
    requires k < |cs|
    ensures InlineLeft(cs[..k + 1], inline) == if |cs[k].choices| > 0 then None else InlineLeft(cs[..k], inline)
    ensures var now, next := Relayed(cs[..k], model, wantUsage, inline), Relayed(cs[..k + 1], model, wantUsage, inline);
      && next <= Relayed(cs, model, wantUsage, inline)
      && next == if HiddenTrailer(cs[k], wantUsage) then now
                 else now + [EventOf(cs[k], model, wantUsage, InlineLeft(cs[..k], inline))]
  {
    RelayedStep(cs, k, model, wantUsage, inline);
    RelayedPrefix(cs, k + 1, model, wantUsage, inline);
  }

  /** Usage is never shown unless the client asked for it. */
  lemma {:induction false} UsageOnlyOnRequest(cs: seq<Chunk>, model: string, inline: Option<string>, k: nat)
    requires k < |Relayed(cs, model, false, inline)|
    ensures Relayed(cs, model, false, inline)[k].Data? && Relayed(cs, model, false, inline)[k].usage.None?
  {
    if k < |Relayed(cs[..|cs| - 1], model, false, inline)| {
      UsageOnlyOnRequest(cs[..|cs| - 1], model, inline, k);
    }
  }

  ghost predicate NoChoicesBefore(ws: seq<Write>, k: nat)
    requires k <= |ws| && forall i :: 0 <= i < |ws| ==> ws[i].Data?
  {
    forall i :: 0 <= i < k ==> |ws[i].choices| == 0
  }

  /** The inline object is on the first event that has choices and on no other; `left` is what is still
      to be sent. */
  ghost predicate InlineOnce(ws: seq<Write>, inline: Option<string>, left: Option<string>) {
    && (forall i :: 0 <= i < |ws| ==> ws[i].Data?)
    && left == (if NoChoicesBefore(ws, |ws|) then inline else None)
    && (forall k :: 0 <= k < |ws| ==>
          ws[k].inline == if |ws[k].choices| > 0 && NoChoicesBefore(ws, k) then inline else None)
  }

  lemma InlineStep(ws: seq<Write>, inline: Option<string>, left: Option<string>, w: Write)
    requires InlineOnce(ws, inline, left) && w.Data? && w.inline == (if |w.choices| > 0 then left else None)
    ensures InlineOnce(ws + [w], inline, if |w.choices| > 0 then None else left)
  {
    var ws' := ws + [w];
    assert forall i :: 0 <= i < |ws| ==> ws'[i] == ws[i];
    assert forall k: nat :: k <= |ws| ==> NoChoicesBefore(ws', k) == NoChoicesBefore(ws, k);
    assert NoChoicesBefore(ws', |ws'|) <==> NoChoicesBefore(ws, |ws|) && |w.choices| == 0 by {
      assert ws'[|ws|] == w;
    }
  }

  lemma {:induction false} InlineOnFirstChoices(cs: seq<Chunk>, model: string, wantUsage: bool, inline: Option<string>)
    ensures InlineOnce(Relayed(cs, model, wantUsage, inline), inline, InlineLeft(cs, inline))
  {
    if |cs| > 0 {
      var before, c := cs[..|cs| - 1], cs[|cs| - 1];
      InlineOnFirstChoices(before, model, wantUsage, inline);
      if !HiddenTrailer(c, wantUsage) {
        InlineStep(Relayed(before, model, wantUsage, inline), inline, InlineLeft(before, inline),
                   EventOf(c, model, wantUsage, InlineLeft(before, inline)));
      }
    }
  }

  function ChunkChoices(cs: seq<Chunk>): seq<seq<Choice>> {
    if |cs| == 0 then []
    else ChunkChoices(cs[..|cs| - 1]) + (if |cs[|cs| - 1].choices| > 0 then [cs[|cs| - 1].choices] else [])
  }

  function EventChoices(ws: seq<Write>): seq<seq<Choice>> {
    if |ws| == 0 then []
    else
      var w := ws[|ws| - 1];
      EventChoices(ws[..|ws| - 1]) + (if w.Data? && |w.choices| > 0 then [w.choices] else [])
  }

  /** No choice is lost, repeated or reordered on the way. */
  lemma {:induction false} ChoicesAreConserved(cs: seq<Chunk>, model: string, wantUsage: bool, inline: Option<string>)
    ensures EventChoices(Relayed(cs, model, wantUsage, inline)) == ChunkChoices(cs)
  {
    if |cs| > 0 {
      var before := cs[..|cs| - 1];
      ChoicesAreConserved(before, model, wantUsage, inline);
      var ws' := Relayed(before, model, wantUsage, inline);
      var c := cs[|cs| - 1];
      if !HiddenTrailer(c, wantUsage) {
        var ws := ws' + [EventOf(c, model, wantUsage, InlineLeft(before, inline))];
        assert ws[..|ws| - 1] == ws';
      }
    }
  }

  function ChoiceChars(choices: seq<Choice>): nat {
    if |choices| == 0 then 0
    else (match choices[0].content case None => 0 case Some(t) => |t|) + ChoiceChars(choices[1..])
  }

  function ToolNames(choices: seq<Choice>): seq<string> {
    if |choices| == 0 then [] else choices[0].toolNames + ToolNames(choices[1..])
  }

  function Least(a: nat, b: nat): nat { if a < b then a else b }

  /** With usage asked for every chunk is an event and shows its usage; every event has the client's model name. */
  lemma {:induction false} EventsShow(cs: seq<Chunk>, model: string, wantUsage: bool, inline: Option<string>)
    ensures forall i :: 0 <= i < |Relayed(cs, model, wantUsage, inline)| ==>
      Relayed(cs, model, wantUsage, inline)[i].Data? && Relayed(cs, model, wantUsage, inline)[i].model == model
    ensures wantUsage ==> |Relayed(cs, model, wantUsage, inline)| == |cs|
    ensures wantUsage ==> forall i :: 0 <= i < |cs| ==> Relayed(cs, model, wantUsage, inline)[i].usage == cs[i].usage
  {
    if |cs| > 0 {
      EventsShow(cs[..|cs| - 1], model, wantUsage, inline);
    }
  }

  /** What the row is filled from: the last usage reported and the characters of the answer. */
  datatype Tally = Tally(usage: Option<Ledger.Usage>, chars: nat)

  function Add(t: Tally, c: Chunk): Tally {
    Tally(if c.usage.Some? then c.usage else t.usage, t.chars + ChoiceChars(c.choices))
  }

  function TallyOf(cs: seq<Chunk>): Tally {
    if |cs| == 0 then Tally(None, 0) else Add(TallyOf(cs[..|cs| - 1]), cs[|cs| - 1])
  }

  lemma TallyStep(cs: seq<Chunk>, k: nat)
    requires k < |cs|
    ensures TallyOf(cs[..k + 1]) == Add(TallyOf(cs[..k]), cs[k])
  {
    assert cs[..k + 1][..k] == cs[..k];
  }

  /** The same usage and the same counts, whatever else the rows say. */
  predicate SameUsage(a: Ledger.Row, b: Ledger.Row) {
    a.prompt == b.prompt && a.completion == b.completion && a.cached == b.cached && a.written == b.written && a.estimated == b.estimated
  }

  /** The response writer and the request row of one call. */
  class Exchange {
    var out: seq<Write>
    var rec: Ledger.Row

    /** One chunk on its way to a client that is still there; `fails` says that a write would fail. */
    method Forward(c: Chunk, model: string, wantUsage: bool, inlineLeft: Option<string>, fails: bool)
      returns (gone: bool, left: Option<string>, sent: bool)
      modifies this`out
      ensures gone == (fails && !HiddenTrailer(c, wantUsage)) && sent == (!fails && !HiddenTrailer(c, wantUsage))
      ensures !gone ==> left == if |c.choices| > 0 then None else inlineLeft
      ensures out == if sent then old(out) + [EventOf(c, model, wantUsage, inlineLeft)] else old(out)
    {
      gone, left, sent := false, inlineLeft, false;
      var shown := c.usage;
      if c.usage.Some? && !wantUsage {
        shown := None;
        if |c.choices| == 0 {
          return;
        }
      }
      var attached: Option<string> := None;
      if |c.choices| > 0 {
        attached, left := inlineLeft, None;
      }
      gone := fails;
      if !gone {
        out := out + [Data(model, c.choices, shown, attached)];
        sent := true;
      }
    }

    /** The chunk loop. From the first chunk on the headers are out; the client gets the events in order
        until a write fails; the client takes `room` of them. */
    method RelayChunks(chunks: seq<Chunk>, model: string, wantUsage: bool, inline: Option<string>, room: nat)
      returns (clientGone: bool, n: nat, tally: Tally, called: seq<string>)
      modifies this`out
      ensures !clientGone ==> tally == TallyOf(chunks)
      ensures chunks == [] ==> out == old(out) && !clientGone && called == []
      ensures n == Least(room, |Relayed(chunks, model, wantUsage, inline)|)
      ensures clientGone <==> room < |Relayed(chunks, model, wantUsage, inline)|
      ensures chunks != [] ==> out == old(out) + [Headers] + Relayed(chunks, model, wantUsage, inline)[..n]
    {
      var headersSent := false;
      clientGone, n, tally, called := false, 0, Tally(None, 0), [];
      var inlineLeft := inline;
      ghost var start := out + [Headers];
      ghost var sent: seq<Write> := [];   // the data events so far
      ghost var all := Relayed(chunks, model, wantUsage, inline);
      var k := 0;
      while k < |chunks|
        invariant 0 <= k <= |chunks| && sent <= all && n == |sent| <= room
        invariant clientGone ==> n == room < |all|
        invariant headersSent <==> k > 0
        invariant k == 0 ==> out == old(out) && called == [] && !clientGone && sent == []
        invariant headersSent ==> out == start + sent
        invariant !clientGone ==> tally == TallyOf(chunks[..k])
        invariant !clientGone ==> inlineLeft == InlineLeft(chunks[..k], inline)
        invariant !clientGone ==> sent == Relayed(chunks[..k], model, wantUsage, inline)
      {
        var c := chunks[k];
        called := called + ToolNames(c.choices);
        if !clientGone {
          NextEvent(chunks, k, model, wantUsage, inline);
          if !headersSent {
            headersSent := true;
            out := out + [Headers];
          }
          TallyStep(chunks, k);
          tally := Add(tally, c);
          ghost var event := EventOf(c, model, wantUsage, inlineLeft);
          var ok;
          clientGone, inlineLeft, ok := Forward(c, model, wantUsage, inlineLeft, n == room);
          if ok {
            assert start + (sent + [event]) == start + sent + [event];
            sent := sent + [event];
            n := n + 1;
          }
        }
        k := k + 1;
      }
      assert chunks[..|chunks|] == chunks;
      assert sent == all[..n];
    }

    /** One stream attempt at a client that takes `room` events and then, or when its context ends, is gone. A failure is
        returned only before anything was written; from the first chunk on every outcome is settled on the row.
        `n` events were delivered, then `tail`. */
    method Relay(canFlush: bool, chunks: seq<Chunk>, upstreamErr: Option<Retry.AttemptError>, budgetErr: Retry.AttemptError,
                 budgetHit: bool, room: nat, contextEnded: bool,
                 model: string, wantUsage: bool, inline: Option<string>, promptChars: int)
      returns (err: Option<Retry.AttemptError>, gone: bool, n: nat, ghost tail: seq<Write>)
      modifies this
      // an error means an untouched client, an untouched row and an upstream that sent nothing
      ensures err.Some? ==> out == old(out) && rec == old(rec) && chunks == []
      ensures err == if !canFlush || gone || chunks != [] then None else if budgetHit then Some(budgetErr) else upstreamErr
      ensures gone <==> canFlush && (contextEnded || room < |Relayed(chunks, model, wantUsage, inline)|)
      // otherwise the client got nothing, or headers and the first n events, or all of them and an end
      ensures !canFlush ==> out == old(out) + [Unsupported] && rec == old(rec)
      ensures err.None? && canFlush ==>
        n == Least(room, |Relayed(chunks, model, wantUsage, inline)|) &&
        out == old(out) + (if chunks == [] && tail == [] then [] else [Headers])
               + Relayed(chunks, model, wantUsage, inline)[..n] + tail
      ensures err.None? && canFlush ==>
        tail == (if gone then [] else if upstreamErr.Some? then [ErrorEvent, DoneEvent] else [DoneEvent])
      ensures err.None? && canFlush ==> rec.status == (if gone then CLIENT_CLOSED else if upstreamErr.Some? then BAD_GATEWAY else 200)
      // an undisturbed stream leaves the usage of all its chunks on the row
      ensures err.None? && canFlush && !gone ==>
        SameUsage(rec, Ledger.FillUsage(old(rec), TallyOf(chunks).usage, promptChars, TallyOf(chunks).chars))
    {
      n, tail, gone := 0, [], false;
      if !canFlush {
        out := out + [Unsupported];
        return None, gone, n, tail;
      }
      var clientGone, tally, called;
      clientGone, n, tally, called := RelayChunks(chunks, model, wantUsage, inline, room);
      var headersSent := chunks != [];
      gone := clientGone || contextEnded;
      if gone {
        if called != [] {
          rec := rec.(toolNames := called);
        }
        rec := rec.(status := CLIENT_CLOSED, error := "client closed");
        rec := Ledger.FillUsage(rec, tally.usage, promptChars, tally.chars);
        return None, gone, n, tail;
      }
      var failure := if budgetHit && !headersSent then Some(budgetErr) else upstreamErr;
      if failure.Some? && !headersSent {
        return failure, gone, n, tail;
      }
      if called != [] {
        rec := rec.(toolNames := called);
      }
      if !headersSent {
        out := out + [Headers];
      }
      if failure.Some? {
        rec := rec.(status := BAD_GATEWAY, error := "upstream error");
        out := out + [ErrorEvent];
        tail := [ErrorEvent];
      } else {
        rec := rec.(status := 200);
      }
      out := out + [DoneEvent];
      tail := tail + [DoneEvent];
      rec := Ledger.FillUsage(rec, tally.usage, promptChars, tally.chars);
      return None, gone, n, tail;
    }

    /** The stream as the attempt of a walk. It keeps the contract the walk relies on; to the breaker a stream that ended
        well with its client still there reads as a success, and any other that returned no error as neutral. */
    method Attempt(canFlush: bool, chunks: seq<Chunk>, upstreamErr: Option<Retry.AttemptError>, budgetErr: Retry.AttemptError,
                   budgetHit: bool, room: nat, contextEnded: bool,
                   model: string, wantUsage: bool, inline: Option<string>, promptChars: int)
      returns (a: Walk.Attempt, gone: bool)
      modifies this
      ensures Walk.KeepsContract(a) && (a.wrote <==> out != old(out))
      ensures a.err.Some? ==> rec == old(rec)
      ensures gone <==> canFlush && (contextEnded || room < |Relayed(chunks, model, wantUsage, inline)|)
      ensures canFlush && a.err.None? ==>
        Retry.OutcomeOf(contextEnded, a.err, a.status) == if gone || upstreamErr.Some? then Breaker.Neutral else Breaker.Success
      ensures canFlush && !gone && upstreamErr.None? && !(budgetHit && chunks == []) ==> a.err.None?
    {
      ghost var before := out;
      var sizeBefore := |out|;
      var err, n;
      ghost var tail;
      err, gone, n, tail := Relay(canFlush, chunks, upstreamErr, budgetErr, budgetHit, room, contextEnded, model, wantUsage, inline, promptChars);
      a := Walk.Attempt(err, |out| > sizeBefore, rec.status);
    }
  }
}
