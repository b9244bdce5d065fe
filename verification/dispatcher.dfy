/**
 The batch dispatcher: `reply_message`, `reply` and `webhook_handler`. Every
 event of the batch is handed to `reply` in order; a failed outbound call is
 only printed, so `reply` always succeeds and the batch is never cut short.
 */
module Dispatcher {
  import opened Results
  import opened Errors
  import opened WebhookEvent
  import opened LineClient
  import opened ReplyPolicy

  /** The errors printed when `client` makes `calls` one after another on top of `history`. */
  function FailuresOf(client: Client, history: seq<Call>, calls: seq<Call>, transport: Transport): seq<SdkError>
    decreases |calls|
  {
    if |calls| == 0 then []
    else
      var first := match transport(client, history, calls[0])
        case Delivered => []
        case Failed(e) => [e];
      first + FailuresOf(client, history + [calls[0]], calls[1..], transport)
  }

  /**
   One call of the reply endpoint. The call is made whatever the transport
   answers; a failure is printed and otherwise ignored.
   */
  function ReplyMessage(client: Client, replyToken: string, messages: seq<MessageObject>,
                        out: Outbound, transport: Transport): (out': Outbound)
    ensures out'.calls == out.calls + [Call(replyToken, messages)]
    ensures out'.printed == out.printed + FailuresOf(client, out.calls, [Call(replyToken, messages)], transport)
  {
    var call := Call(replyToken, messages);
    match transport(client, out.calls, call)
    case Delivered => Outbound(out.calls + [call], out.printed)
    case Failed(e) => Outbound(out.calls + [call], out.printed + [e])
  }

  /** The outcome of `reply` on one event: its result and the client afterwards. */
  datatype Replied = Replied(result: Result<(), AppError>, out: Outbound)

  /** `reply`: make the event's planned call, if any; the result is `Ok` whatever the transport does. */
  function Reply(event: Event, client: Client, out: Outbound, transport: Transport): (r: Replied)
    ensures r.result == Ok(())
    ensures r.out.calls == out.calls + Planned(event)
    ensures r.out.printed == out.printed + FailuresOf(client, out.calls, Planned(event), transport)
  {
    match event.replyToken
    case None => Replied(Ok(()), out)
    case Some(replyToken) =>
      match GetTextMessage(event)
      case Some(text) =>
        Replied(Ok(()), ReplyMessage(client, replyToken, [CreateTextMessage(text.text)], out, transport))
      case None =>
        Replied(Ok(()), ReplyMessage(client, replyToken, [CreateTextMessage(NonTextReply)], out, transport))
  }

  /** The per-event plans of a batch, concatenated in event order. */
  function Plans(events: seq<Event>): seq<Call>
    decreases |events|
  {
    if |events| == 0 then [] else Planned(events[0]) + Plans(events[1..])
  }

  /** The events of a batch that carry a reply token, in order. */
  function Tokened(events: seq<Event>): seq<Event>
    decreases |events|
  {
    if |events| == 0 then []
    else (if events[0].replyToken.Some? then [events[0]] else []) + Tokened(events[1..])
  }

  lemma {:induction false} PlansAppend(a: seq<Event>, b: seq<Event>)
    ensures Plans(a + b) == Plans(a) + Plans(b)
    decreases |a|
  {
    if |a| == 0 {
      assert a + b == b;
    } else {
      assert (a + b)[1..] == a[1..] + b;
      PlansAppend(a[1..], b);
    }
  }

  lemma {:induction false} FailuresAppend(client: Client, history: seq<Call>, a: seq<Call>, b: seq<Call>, transport: Transport)
    ensures FailuresOf(client, history, a + b, transport)
         == FailuresOf(client, history, a, transport) + FailuresOf(client, history + a, b, transport)
    decreases |a|
  {
    if |a| == 0 {
      assert a + b == b;
      assert history + a == history;
    } else {
      assert (a + b)[0] == a[0];
      assert (a + b)[1..] == a[1..] + b;
      assert history + [a[0]] + a[1..] == history + a;
      FailuresAppend(client, history + [a[0]], a[1..], b, transport);
    }
  }

  /**
   Order preservation: the calls of a batch are the plans of its tokened
   events, one call per tokened event, in event order.
   */
  lemma {:induction false} PlansFollowTokened(events: seq<Event>)
    ensures |Plans(events)| == |Tokened(events)|
    ensures forall k :: 0 <= k < |Plans(events)| ==> Plan(Tokened(events)[k]) == Some(Plans(events)[k])
    decreases |events|
  {
    if |events| > 0 {
      PlansFollowTokened(events[1..]);
      TokenSpentAtMostOnce(events[0]);
      var head := if events[0].replyToken.Some? then [events[0]] else [];
      assert Tokened(events) == head + Tokened(events[1..]);
      assert Plans(events) == Planned(events[0]) + Plans(events[1..]);
      assert |Planned(events[0])| == |head|;
      forall k | 0 <= k < |Plans(events)|
        ensures Plan(Tokened(events)[k]) == Some(Plans(events)[k])
      {
        if k < |head| {
          assert Tokened(events)[k] == events[0];
          assert Plans(events)[k] == Planned(events[0])[0];
        } else {
          assert Tokened(events)[k] == Tokened(events[1..])[k - |head|];
          assert Plans(events)[k] == Plans(events[1..])[k - |head|];
        }
      }
    }
  }

  /**
   Order preservation, positionally: the call of event `i` comes after the calls
   of every earlier event and before the calls of every later one.
   */
  lemma {:induction false} PlansSplitAt(events: seq<Event>, i: nat)
    requires i < |events|
    ensures Plans(events) == Plans(events[..i]) + Planned(events[i]) + Plans(events[i + 1..])
  {
    var before, event, after := events[..i], events[i], events[i + 1..];
    assert events == before + [event] + after;
    PlansAppend(before + [event], after);
    PlansAppend(before, [event]);
    PlansSingle(event);
  }

  lemma PlansSingle(event: Event)
    ensures Plans([event]) == Planned(event)
  {
  }

  /** A batch in which no event carries a reply token makes no call at all. */
  lemma {:induction false} NoTokensNoCalls(events: seq<Event>)
    requires forall i :: 0 <= i < |events| ==> events[i].replyToken.None?
    ensures Plans(events) == []
    decreases |events|
  {
    if |events| > 0 {
      NoTokensNoCalls(events[1..]);
    }
  }

  /**
   `webhook_handler`: hand every event to `reply` in order, stopping at the first
   `Err` (the `?` of the loop). Because `reply` never fails, the loop always runs
   to the end: whatever the transport answers, every tokened event gets its call,
   in order, and every failure is printed.
   */
  method WebhookHandler(root: Root, client: Client, out0: Outbound, transport: Transport)
    returns (result: Result<(), AppError>, out: Outbound)
    ensures result == Ok(())
    ensures out.calls == out0.calls + Plans(root.events)
    ensures |out.calls| == |out0.calls| + |Tokened(root.events)|
    ensures out.printed == out0.printed + FailuresOf(client, out0.calls, Plans(root.events), transport)
  {
    var events := root.events;
    result := Ok(());
    out := out0;
    var i := 0;
    while i < |events| && result.Ok?
      invariant 0 <= i <= |events|
      invariant result == Ok(())
      invariant out.calls == out0.calls + Plans(events[..i])
      invariant out.printed == out0.printed + FailuresOf(client, out0.calls, Plans(events[..i]), transport)
    {
      var replied := Reply(events[i], client, out, transport);
      var done, event := events[..i], events[i];
      assert events[..i + 1] == done + [event];
      PlansAppend(done, [event]);
      PlansSingle(event);
      FailuresAppend(client, out0.calls, Plans(done), Planned(event), transport);
      assert out0.calls + Plans(done) == out.calls;
      result, out := replied.result, replied.out;
      i := i + 1;
    }
    assert events[..i] == events;
    PlansFollowTokened(events);
  }
}
