/**
 Request identifiers and the pending maps of the hook client
 (packages/bridge/src/qq-hook-client.ts, `allocateRequestId` and `handleControlFrame`).

 A `Token` stands for one call of `send`: the promise its caller waits on.
 */
module RequestIds {
  import opened Words

  type Token = nat

  type RequestId = x: int | 0 < x <= 0xffff_ffff witness 1

  /** One step of the wrapping search: zero is the wire's sentinel and is skipped. */
  function Next(id: RequestId): RequestId {
    if (id + 1) % U32 == 0 then 1 else (id + 1) % U32
  }

  function Walk(id: RequestId, steps: nat): RequestId {
    if steps == 0 then id else Next(Walk(id, steps - 1))
  }

  /** How many steps of the cycle lead from one identifier to another. */
  function Distance(from: RequestId, to: RequestId): nat {
    if from <= to then to - from else to + (U32 - 1) - from
  }

  lemma {:induction false} WalkCloses(from: RequestId, to: RequestId, steps: nat)
    requires steps <= Distance(from, to)
    ensures Distance(Walk(from, steps), to) == Distance(from, to) - steps
  {
    if steps > 0 {
      WalkCloses(from, to, steps - 1);
    }
  }

  /** The search visits every identifier: each lies on the cycle from each. */
  lemma WalkReaches(from: RequestId, to: RequestId)
    ensures Walk(from, Distance(from, to)) == to
  {
    WalkCloses(from, to, Distance(from, to));
  }

  datatype Settlement =
    | Acked(token: Token)
    | Replied(token: Token)
    | AckFailed(token: Token)
    | ReplyFailed(token: Token)

  /** Which of a request's two promises a settlement is about. */
  predicate OnAck(s: Settlement) {
    s.Acked? || s.AckFailed?
  }

  /** An error frame of the runtime itself belongs to no request. */
  datatype ControlFrame = AckFrame(id: int) | ReplyFrame(id: int) | ErrorFrame(id: int) | RuntimeFrame

  /** Exactly the promises of these maps failed. */
  ghost predicate AllFailed(acks: map<RequestId, Token>, replies: map<RequestId, Token>, settled: seq<Settlement>) {
    && (forall t :: AckFailed(t) in settled <==> t in acks.Values)
    && (forall t :: ReplyFailed(t) in settled <==> t in replies.Values)
    && (forall i :: 0 <= i < |settled| ==> settled[i].AckFailed? || settled[i].ReplyFailed?)
  }

  lemma {:induction false} OneMoreFails(acks: map<RequestId, Token>, replies: map<RequestId, Token>, settled: seq<Settlement>,
                                        id: RequestId, t: Token, ack: bool)
    requires AllFailed(acks, replies, settled) && id !in acks && id !in replies
    ensures ack ==> AllFailed(acks[id := t], replies, settled + [AckFailed(t)])
    ensures !ack ==> AllFailed(acks, replies[id := t], settled + [ReplyFailed(t)])
  {
    ValuesGrow(acks, id, t);
    ValuesGrow(replies, id, t);
  }

  lemma ValuesGrow(m: map<RequestId, Token>, id: RequestId, t: Token)
    requires id !in m
    ensures m[id := t].Values == m.Values + {t}
  {
    var more := m[id := t];
    forall v | v in m.Values + {t} ensures v in more.Values {
      if v == t {
        assert more[id] == t;
      } else {
        var k :| k in m && m[k] == v;
        assert more[k] == v;
      }
    }
  }

  lemma {:induction false} BothFailed(acks: map<RequestId, Token>, replies: map<RequestId, Token>, a: seq<Settlement>, b: seq<Settlement>)
    requires AllFailed(acks, map[], a) && AllFailed(map[], replies, b)
    ensures AllFailed(acks, replies, a + b)
  {
  }

  class Pending {
    var nextRequestId: RequestId
    var acks: map<RequestId, Token>
    var replies: map<RequestId, Token>
    ghost var idOf: map<Token, RequestId>
    var settled: seq<Settlement>

    /** Every pending entry sits under the identifier its own request was given. */
    ghost predicate Valid()
      reads this
    {
      && (forall id :: id in acks ==> acks[id] in idOf && idOf[acks[id]] == id)
      && (forall id :: id in replies ==> replies[id] in idOf && idOf[replies[id]] == id)
      && (forall id :: id in acks && id in replies ==> acks[id] == replies[id])
      && (forall i :: 0 <= i < |settled| ==> settled[i].token in idOf)
      && (forall i, j :: 0 <= i < j < |settled| && settled[i].token == settled[j].token ==>
            OnAck(settled[i]) != OnAck(settled[j]))
      && (forall i :: 0 <= i < |settled| ==>
            settled[i].token !in (if OnAck(settled[i]) then acks.Values else replies.Values))
    }

    ghost predicate Free(id: RequestId)
      reads this
    {
      id !in acks && id !in replies
    }

    constructor ()
      ensures Valid() && nextRequestId == 1 && acks == map[] && replies == map[] && settled == []
    {
      nextRequestId, acks, replies, idOf, settled := 1, map[], map[], map[], [];
    }

    /** The wrapping search comes to a free identifier exactly when there is one; with none free it never ends. */
    lemma SearchEnds()
      ensures (exists steps: nat :: Free(Walk(nextRequestId, steps))) <==> exists id: RequestId :: Free(id)
    {
      if steps: nat :| Free(Walk(nextRequestId, steps)) {
        var id: RequestId := Walk(nextRequestId, steps);
        assert Free(id);
      }
      if id: RequestId :| Free(id) {
        WalkReaches(nextRequestId, id);
        assert Free(Walk(nextRequestId, Distance(nextRequestId, id)));
      }
    }

    /** The first free identifier on the cycle, as long as any identifier is free at all. */
    method AllocateRequestId() returns (requestId: RequestId)
      requires exists id: RequestId :: Free(id)
      modifies `nextRequestId
      ensures Free(requestId)
      ensures requestId == Walk(old(nextRequestId), Distance(old(nextRequestId), requestId))
      ensures forall j: nat :: j < Distance(old(nextRequestId), requestId) ==> !Free(Walk(old(nextRequestId), j))
      ensures nextRequestId == Next(requestId)
    {
      ghost var target: RequestId :| Free(target);
      ghost var start := nextRequestId;
      requestId := nextRequestId;
      ghost var steps := 0;
      while requestId in acks || requestId in replies
        invariant steps <= Distance(start, target) && requestId == Walk(start, steps)
        invariant forall j: nat :: j < steps ==> !Free(Walk(start, j))
        decreases Distance(requestId, target)
      {
        WalkCloses(start, target, steps);
        var next := (requestId + 1) % U32;
        if next == 0 {
          next := 1;
        }
        requestId := next;
        steps := steps + 1;
      }
      WalkCloses(start, target, steps);
      assert steps == Distance(start, requestId);
      nextRequestId := Next(requestId);
    }

    /** `send` from the allocation to its write: the request waits under a free identifier. */
    method Register(token: Token, wantReply: bool) returns (requestId: RequestId)
      requires Valid() && token !in idOf
      requires exists id: RequestId :: Free(id)
      modifies this
      ensures Valid() && old(Free(requestId)) && settled == old(settled)
      ensures acks == old(acks)[requestId := token]
      ensures replies == if wantReply then old(replies)[requestId := token] else old(replies)
      ensures idOf == old(idOf)[token := requestId]
    {
      requestId := AllocateRequestId();
      acks := acks[requestId := token];
      if wantReply {
        replies := replies[requestId := token];
      }
      idOf := idOf[token := requestId];
      assert forall id :: id in old(acks) ==> old(acks)[id] in old(idOf);
      assert forall id :: id in old(replies) ==> old(replies)[id] in old(idOf);
    }

    /** An ack, reply or error settles what waits under its identifier, and nothing else; a runtime error fails everything. */
    method HandleFrame(frame: ControlFrame)
      requires Valid()
      modifies `acks, `replies, `settled
      ensures Valid()
      ensures old(settled) <= settled
      ensures !frame.RuntimeFrame? ==>
                forall i :: |old(settled)| <= i < |settled| ==> idOf[settled[i].token] == frame.id
      ensures frame.RuntimeFrame? ==> acks == map[] && replies == map[] && AllFailed(old(acks), old(replies), settled[|old(settled)|..])
      ensures frame.AckFrame? && frame.id in old(acks) ==>
                settled == old(settled) + [Acked(old(acks)[frame.id])]
      ensures frame.ReplyFrame? && frame.id in old(replies) ==>
                settled == old(settled) + [Replied(old(replies)[frame.id])]
      ensures frame.ErrorFrame? ==>
                settled == old(settled)
                + (if frame.id in old(acks) then [AckFailed(old(acks)[frame.id])] else [])
                + (if frame.id in old(replies) then [ReplyFailed(old(replies)[frame.id])] else [])
      ensures !frame.RuntimeFrame? ==>
                && acks == (if frame.ReplyFrame? then old(acks) else old(acks) - {frame.id})
                && replies == (if frame.AckFrame? then old(replies) else old(replies) - {frame.id})
    {
      match frame
      case AckFrame(id) =>
        SettleAck(id, false);
      case ReplyFrame(id) =>
        SettleReply(id, false);
      case ErrorFrame(id) =>
        SettleAck(id, true);
        SettleReply(id, true);
      case RuntimeFrame =>
        RejectControlPending();
    }

    /** A runtime error, a closed pipe or a closed client: every pending promise fails, exactly once. */
    method RejectControlPending()
      requires Valid()
      modifies `acks, `replies, `settled
      ensures Valid() && acks == map[] && replies == map[] && old(settled) <= settled
      ensures AllFailed(old(acks), old(replies), settled[|old(settled)|..])
    {
      ghost var first := settled;
      RejectAcks();
      ghost var second := settled;
      RejectReplies();
      BothFailed(old(acks), old(replies), second[|first|..], settled[|second|..]);
      assert settled[|first|..] == second[|first|..] + settled[|second|..];
    }

    method RejectAcks()
      requires Valid()
      modifies `acks, `settled
      ensures Valid() && acks == map[] && old(settled) <= settled
      ensures AllFailed(old(acks), map[], settled[|old(settled)|..])
    {
      ghost var was, before := acks, settled;
      var todo := acks.Keys;
      while todo != {}
        invariant Valid() && todo == acks.Keys <= was.Keys && (forall id :: id in acks ==> acks[id] == was[id])
        invariant before <= settled
        invariant AllFailed(was - todo, map[], settled[|before|..])
      {
        var id :| id in todo;
        ghost var some := settled[|before|..];
        SettleAck(id, true);
        assert settled[|before|..] == some + [AckFailed(was[id])];
        OneMoreFails(was - todo, map[], some, id, was[id], true);
        assert was - (todo - {id}) == (was - todo)[id := was[id]];
        todo := todo - {id};
      }
      assert was - {} == was;
    }

    method RejectReplies()
      requires Valid() && acks == map[]
      modifies `replies, `settled
      ensures Valid() && replies == map[] && old(settled) <= settled
      ensures AllFailed(map[], old(replies), settled[|old(settled)|..])
    {
      ghost var was, before := replies, settled;
      var todo := replies.Keys;
      while todo != {}
        invariant Valid() && todo == replies.Keys <= was.Keys && (forall id :: id in replies ==> replies[id] == was[id])
        invariant before <= settled
        invariant AllFailed(map[], was - todo, settled[|before|..])
      {
        var id :| id in todo;
        ghost var some := settled[|before|..];
        SettleReply(id, true);
        assert settled[|before|..] == some + [ReplyFailed(was[id])];
        OneMoreFails(map[], was - todo, some, id, was[id], false);
        assert was - (todo - {id}) == (was - todo)[id := was[id]];
        todo := todo - {id};
      }
      assert was - {} == was;
    }

    method SettleAck(id: int, failed: bool)
      requires Valid()
      modifies `acks, `settled
      ensures Valid() && acks == old(acks) - {id}
      ensures settled == old(settled) + if id !in old(acks) then []
                                        else if failed then [AckFailed(old(acks)[id])] else [Acked(old(acks)[id])]
      ensures id in old(acks) ==> idOf[old(acks)[id]] == id
    {
      if id !in acks {
        return;
      }
      var token := acks[id];
      acks := acks - {id};
      settled := settled + [if failed then AckFailed(token) else Acked(token)];
      assert forall k :: k in acks ==> acks[k] == old(acks)[k] && idOf[acks[k]] == k;
    }

    method SettleReply(id: int, failed: bool)
      requires Valid()
      modifies `replies, `settled
      ensures Valid() && replies == old(replies) - {id}
      ensures settled == old(settled) + if id !in old(replies) then []
                                        else if failed then [ReplyFailed(old(replies)[id])] else [Replied(old(replies)[id])]
      ensures id in old(replies) ==> idOf[old(replies)[id]] == id
    {
      if id !in replies {
        return;
      }
      var token := replies[id];
      replies := replies - {id};
      settled := settled + [if failed then ReplyFailed(token) else Replied(token)];
      assert forall k :: k in replies ==> replies[k] == old(replies)[k] && idOf[replies[k]] == k;
    }

    /** A send that timed out or could not be written deletes whatever sits under its identifier. */
    method Abandon(id: RequestId)
      requires Valid()
      modifies `acks, `replies
      ensures Valid() && acks == old(acks) - {id} && replies == old(replies) - {id}
    {
      acks, replies := acks - {id}, replies - {id};
      assert acks.Values <= old(acks).Values && replies.Values <= old(replies).Values;
    }
  }
}
