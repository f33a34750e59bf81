/**
 * The Zabbix server as the client sees it: every JSON-RPC message posted
 * is appended to a log, and the HTTP answer to a message is an arbitrary
 * but fixed function of the messages posted before it and of the message
 * itself.
 */
module Remote {
  import opened Values

  /** A JSON-RPC request as the library builds it: its method and params. */
  datatype Request = Request(name: string, params: Value)

  /** An HTTP answer, its body already parsed as JSON, or no answer at all. */
  datatype Reply = Response(code: string, body: Value) | NoReply

  /** One message that was posted and the reply it got. */
  datatype Exchange = Exchange(message: Fields, reply: Reply)

  type Oracle = (seq<Fields>, Fields) -> Reply

  /** The exchanges of the log from position `from` on. */
  function ExchangesOf(log: seq<Fields>, answer: Oracle, from: nat): (xs: seq<Exchange>)
    requires from <= |log|
    ensures |xs| == |log| - from
    ensures forall i | 0 <= i < |xs| ::
      xs[i] == Exchange(log[from + i], answer(log[..from + i], log[from + i]))
  {
    seq(|log| - from, i requires 0 <= i < |log| - from =>
      Exchange(log[from + i], answer(log[..from + i], log[from + i])))
  }

  /** The exchanges made after a log grew from `log1` to `log2` split at `log1`'s end. */
  lemma {:induction false} ExchangesSplit(log1: seq<Fields>, log2: seq<Fields>, answer: Oracle, from: nat)
    requires from <= |log1| <= |log2| && log2[..|log1|] == log1
    ensures ExchangesOf(log2, answer, from)
         == ExchangesOf(log1, answer, from) + ExchangesOf(log2, answer, |log1|)
  {
    var a := ExchangesOf(log1, answer, from);
    var b := ExchangesOf(log2, answer, |log1|);
    var c := ExchangesOf(log2, answer, from);
    forall i | 0 <= i < |c|
      ensures c[i] == (a + b)[i]
    {
      if i < |a| {
        assert log2[from + i] == log1[from + i];
        assert log2[..from + i] == log1[..from + i];
      } else {
        assert from + i == |log1| + (i - |a|);
      }
    }
  }

  predicate Extends(before: seq<Fields>, after: seq<Fields>) {
    |before| <= |after| && after[..|before|] == before
  }

  class Server {
    /** Every message posted so far, oldest first. */
    var log: seq<Fields>
    /** The reply the server gives to a message, given the messages before it. */
    const answer: Oracle

    constructor(answer: Oracle)
      ensures log == [] && this.answer == answer
    {
      this.log := [];
      this.answer := answer;
    }

    /** The messages posted since the log had `from` entries, with their replies. */
    ghost function Since(from: nat): seq<Exchange>
      reads this
      requires from <= |log|
    {
      ExchangesOf(log, answer, from)
    }

    /** Posts one message and returns the server's reply. */
    method Post(message: Fields) returns (reply: Reply)
      modifies this
      ensures log == old(log) + [message]
      ensures reply == answer(old(log), message)
      ensures Since(old(|log|)) == [Exchange(message, reply)]
    {
      reply := answer(log, message);
      log := log + [message];
      assert log[..|log| - 1] == old(log);
    }
  }
}
