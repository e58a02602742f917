/** From a WAL payload to an emitted transaction: decode, drop what is not actionable, feed (client.py). */
module Pipeline {
  import opened Wrappers
  import opened Bytes
  import opened Messages
  import Pgoutput
  import Assembler

  datatype Pipe = Pipe(decoder: Pgoutput.DecoderState, assembler: Assembler.State)

  const FRESH_PIPE := Pipe(Pgoutput.FRESH_DECODER, Assembler.EMPTY)

  /** The state after one payload, and the transaction it completed or the exception it raised. */
  function Handle(p: Pipe, payload: Text): (Pipe, Result<Option<Transaction>>) {
    var (decoder, decoded) := Pgoutput.Decode(p.decoder, payload);
    match decoded
    case Err(fault) => (p.(decoder := decoder), Err(fault))
    case Ok(m) =>
      if m.Ignored() then (p.(decoder := decoder), Ok(None))
      else
        var (assembler, r) := Assembler.Effect(p.assembler, Assembler.Feed(p.assembler, m));
        (Pipe(decoder, assembler), r)
  }

  function HandleAll(p: Pipe, payloads: seq<Text>): Result<(Pipe, seq<Transaction>)>
    decreases |payloads|
  {
    if payloads == [] then Ok((p, []))
    else
      match Handle(p, payloads[0])
      case (_, Err(fault)) => Err(fault)
      case (q, Ok(out)) =>
        var (r, outs) :- HandleAll(q, payloads[1..]);
        Ok((r, Assembler.Emits(out) + outs))
  }

  lemma {:induction false} HandleConcat(p: Pipe, a: seq<Text>, b: seq<Text>)
    requires HandleAll(p, a).Ok?
    ensures HandleAll(p, a + b) == match HandleAll(HandleAll(p, a).value.0, b)
                                   case Err(fault) => Err(fault)
                                   case Ok((q, outs)) => Ok((q, HandleAll(p, a).value.1 + outs))
    decreases |a|
  {
    hide Handle;
    if a == [] {
      assert a + b == b;
      assert HandleAll(p, b).Ok? ==> [] + HandleAll(p, b).value.1 == HandleAll(p, b).value.1;
    } else {
      assert (a + b)[1..] == a[1..] + b;
      var (q, r) := Handle(p, a[0]);
      HandleConcat(q, a[1..], b);
      var (m, outs) := HandleAll(q, a[1..]).value;
      if HandleAll(m, b).Ok? {
        var more := HandleAll(m, b).value.1;
        assert Assembler.Emits(r.value) + (outs + more) == Assembler.Emits(r.value) + outs + more;
      }
    }
  }

  lemma HandleOne(p: Pipe, payload: Text)
    requires Handle(p, payload).1.Ok?
    ensures HandleAll(p, [payload]) == Ok((Handle(p, payload).0, Assembler.Emits(Handle(p, payload).1.value)))
  {
    hide Handle;
    var (q, r) := Handle(p, payload);
    assert [payload][1..] == [];
    assert HandleAll(q, []) == Ok((q, []));
    assert Assembler.Emits(r.value) + [] == Assembler.Emits(r.value);
  }

  /** A message that ends the stream whose bracket is still open. */
  predicate EndsOpenBracket(p: Pipe, m: Message) {
    match m
    case StreamCommit(xid, _, _, _) => p.assembler.active == Some(xid)
    case StreamAbort(xid, sub) => sub == xid && p.assembler.active == Some(xid)
    case _ => false
  }

  /**
   Decoder and assembler keep agreeing on whether a bracket is open exactly as long as no stream is ended
   inside its own bracket: the assembler then closes the bracket, the decoder does not.
   */
  lemma BracketAgreement(p: Pipe, payload: Text)
    requires p.decoder.streaming == p.assembler.active.Some?
    requires Handle(p, payload).1.Ok?
    ensures var q := Handle(p, payload).0;
            q.decoder.streaming == q.assembler.active.Some?
            <==> !EndsOpenBracket(p, Pgoutput.Decode(p.decoder, payload).1.value)
  {
    DecodedKind(p.decoder, payload);
    hide Pgoutput.Decode;
  }

  /** The flag moves only on the two bracket markers. */
  lemma DecodedKind(d: Pgoutput.DecoderState, payload: Text)
    requires Pgoutput.Decode(d, payload).1.Ok?
    ensures var (e, r) := Pgoutput.Decode(d, payload);
            e.streaming == (r.value.StreamStart? || (d.streaming && !r.value.StreamStop?))
  {
  }
}
