/**
 * The SMBus controller the drivers talk to, modelled as a recording bus that
 * answers from a script. Every transaction (a write or a read) is appended to
 * `log` and consumes the next scripted reply; a write is acknowledged by an
 * empty reply and a read by exactly as many bytes as it asked for. A `Fault`,
 * a reply of the wrong size or an exhausted script is the controller raising
 * OSError. Delays (`time.sleep`) are logged too but consume no reply.
 */
module Bus {
  import opened Bits
  import opened Errors

  datatype Event =
    | WriteByte(addr: int, value: int)
    | WriteByteData(addr: int, reg: int, value: int)
    | WriteWordData(addr: int, reg: int, word: int)
    | WriteBlock(addr: int, reg: int, data: seq<int>)
    | ReadByte(addr: int)
    | ReadByteData(addr: int, reg: int)
    | ReadWordData(addr: int, reg: int)
    | ReadBlock(addr: int, reg: int, count: nat)
    | Sleep(micros: nat)

  datatype Reply = Bytes(data: seq<Byte>) | Fault

  /** The number of bytes a transaction reads back (0 for a write). */
  function Size(e: Event): nat
  {
    match e
    case ReadByte(_) => 1
    case ReadByteData(_, _) => 1
    case ReadWordData(_, _) => 2
    case ReadBlock(_, _, count) => count
    case _ => 0
  }

  predicate Fits(r: Reply, n: nat)
  {
    r.Bytes? && |r.data| == n
  }

  /** The script answers every one of the transactions `plan`, in order, without a failure. */
  predicate Serves(script: seq<Reply>, plan: seq<Event>)
  {
    |plan| <= |script| && forall i :: 0 <= i < |plan| ==> Fits(script[i], Size(plan[i]))
  }

  lemma ServesPrefix(script: seq<Reply>, plan: seq<Event>, e: Event)
    requires Serves(script, plan + [e])
    ensures Serves(script, plan)
    ensures Fits(script[|plan|], Size(e))
  {
    assert (plan + [e])[|plan|] == e;
    forall i | 0 <= i < |plan|
      ensures Fits(script[i], Size(plan[i]))
    {
      assert (plan + [e])[i] == plan[i];
    }
  }

  lemma ServesExtend(script: seq<Reply>, plan: seq<Event>, e: Event)
    requires Serves(script, plan) && |plan| < |script| && Fits(script[|plan|], Size(e))
    ensures Serves(script, plan + [e])
  {
    forall i | 0 <= i < |plan| + 1
      ensures Fits(script[i], Size((plan + [e])[i]))
    {
      if i < |plan| {
        assert (plan + [e])[i] == plan[i];
      }
    }
  }

  /** The script after one transaction, whatever its outcome. */
  function Tail(script: seq<Reply>): seq<Reply>
  {
    if script == [] then [] else script[1..]
  }

  /** A script serves a plan when it serves its first transaction and what is left serves the rest. */
  lemma ServesCons(script: seq<Reply>, e: Event, plan: seq<Event>)
    ensures Serves(script, [e] + plan) <==> Serves(script, [e]) && Serves(Tail(script), plan)
  {
    if Serves(script, [e]) && Serves(Tail(script), plan) {
      forall i | 0 <= i < |plan| + 1
        ensures Fits(script[i], Size(([e] + plan)[i]))
      {
        if i > 0 {
          assert ([e] + plan)[i] == plan[i - 1];
          assert Tail(script)[i - 1] == script[i];
        }
      }
    }
    if Serves(script, [e] + plan) {
      assert ([e] + plan)[0] == e;
      forall i | 0 <= i < |plan|
        ensures Fits(Tail(script)[i], Size(plan[i]))
      {
        assert ([e] + plan)[i + 1] == plan[i];
      }
    }
  }

  class Bus {
    var log: seq<Event>
    var script: seq<Reply>

    constructor (script: seq<Reply>)
      ensures log == [] && this.script == script
    {
      log := [];
      this.script := script;
    }

    /** Issues one transaction: it is logged and answered by the next scripted reply. */
    method Transfer(e: Event) returns (r: Result<seq<Byte>>)
      requires !e.Sleep?
      modifies this
      ensures log == old(log) + [e]
      ensures script == if old(script) == [] then [] else old(script)[1..]
      ensures r.Ok? <==> Serves(old(script), [e])
      ensures r.Ok? ==> r.value == old(script)[0].data && |r.value| == Size(e)
      ensures r.Err? ==> r.error == IOError
    {
      log := log + [e];
      if script == [] {
        r := Err(IOError);
      } else {
        var reply := script[0];
        script := script[1..];
        if Fits(reply, Size(e)) {
          r := Ok(reply.data);
        } else {
          r := Err(IOError);
        }
      }
    }

    method WriteByte(addr: int, value: int) returns (r: Result<()>)
      modifies this
      ensures log == old(log) + [Event.WriteByte(addr, value)]
      ensures script == if old(script) == [] then [] else old(script)[1..]
      ensures r.Ok? <==> Serves(old(script), [Event.WriteByte(addr, value)])
      ensures r.Err? ==> r.error == IOError
    {
      var t := Transfer(Event.WriteByte(addr, value));
      r := if t.Ok? then Ok(()) else Err(t.error);
    }

    method WriteByteData(addr: int, reg: int, value: int) returns (r: Result<()>)
      modifies this
      ensures log == old(log) + [Event.WriteByteData(addr, reg, value)]
      ensures script == if old(script) == [] then [] else old(script)[1..]
      ensures r.Ok? <==> Serves(old(script), [Event.WriteByteData(addr, reg, value)])
      ensures r.Err? ==> r.error == IOError
    {
      var t := Transfer(Event.WriteByteData(addr, reg, value));
      r := if t.Ok? then Ok(()) else Err(t.error);
    }

    method WriteWordData(addr: int, reg: int, word: int) returns (r: Result<()>)
      modifies this
      ensures log == old(log) + [Event.WriteWordData(addr, reg, word)]
      ensures script == if old(script) == [] then [] else old(script)[1..]
      ensures r.Ok? <==> Serves(old(script), [Event.WriteWordData(addr, reg, word)])
      ensures r.Err? ==> r.error == IOError
    {
      var t := Transfer(Event.WriteWordData(addr, reg, word));
      r := if t.Ok? then Ok(()) else Err(t.error);
    }

    method WriteBlock(addr: int, reg: int, data: seq<int>) returns (r: Result<()>)
      modifies this
      ensures log == old(log) + [Event.WriteBlock(addr, reg, data)]
      ensures script == if old(script) == [] then [] else old(script)[1..]
      ensures r.Ok? <==> Serves(old(script), [Event.WriteBlock(addr, reg, data)])
      ensures r.Err? ==> r.error == IOError
    {
      var t := Transfer(Event.WriteBlock(addr, reg, data));
      r := if t.Ok? then Ok(()) else Err(t.error);
    }

    method ReadByte(addr: int) returns (r: Result<Byte>)
      modifies this
      ensures log == old(log) + [Event.ReadByte(addr)]
      ensures script == if old(script) == [] then [] else old(script)[1..]
      ensures r.Ok? <==> Serves(old(script), [Event.ReadByte(addr)])
      ensures r.Ok? ==> r.value == old(script)[0].data[0]
      ensures r.Err? ==> r.error == IOError
    {
      var t := Transfer(Event.ReadByte(addr));
      r := if t.Ok? then Ok(t.value[0]) else Err(t.error);
    }

    method ReadByteData(addr: int, reg: int) returns (r: Result<Byte>)
      modifies this
      ensures log == old(log) + [Event.ReadByteData(addr, reg)]
      ensures script == if old(script) == [] then [] else old(script)[1..]
      ensures r.Ok? <==> Serves(old(script), [Event.ReadByteData(addr, reg)])
      ensures r.Ok? ==> r.value == old(script)[0].data[0]
      ensures r.Err? ==> r.error == IOError
    {
      var t := Transfer(Event.ReadByteData(addr, reg));
      r := if t.Ok? then Ok(t.value[0]) else Err(t.error);
    }

    /** An SMBus word read: the first byte on the wire is the low byte of the word. */
    method ReadWordData(addr: int, reg: int) returns (r: Result<nat>)
      modifies this
      ensures log == old(log) + [Event.ReadWordData(addr, reg)]
      ensures script == if old(script) == [] then [] else old(script)[1..]
      ensures r.Ok? <==> Serves(old(script), [Event.ReadWordData(addr, reg)])
      ensures r.Ok? ==> r.value == Le16(old(script)[0].data[0], old(script)[0].data[1])
      ensures r.Err? ==> r.error == IOError
    {
      var t := Transfer(Event.ReadWordData(addr, reg));
      r := if t.Ok? then Ok(Le16(t.value[0], t.value[1])) else Err(t.error);
    }

    method ReadBlock(addr: int, reg: int, count: nat) returns (r: Result<seq<Byte>>)
      modifies this
      ensures log == old(log) + [Event.ReadBlock(addr, reg, count)]
      ensures script == if old(script) == [] then [] else old(script)[1..]
      ensures r.Ok? <==> Serves(old(script), [Event.ReadBlock(addr, reg, count)])
      ensures r.Ok? ==> r.value == old(script)[0].data && |r.value| == count
      ensures r.Err? ==> r.error == IOError
    {
      r := Transfer(Event.ReadBlock(addr, reg, count));
    }

    /** `time.sleep`: recorded, and no reply is consumed. */
    method Sleep(micros: nat)
      modifies this
      ensures log == old(log) + [Event.Sleep(micros)]
      ensures script == old(script)
    {
      log := log + [Event.Sleep(micros)];
    }
  }
}
