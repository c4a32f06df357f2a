/** Pruning the messages of a channel by number and by age. */
module ChannelRetention {
  import opened Text

  /** A message; `at` is None when its timestamp cannot be parsed. */
  datatype Message = Message(id: string, at: Option<int>)

  /** At most `count` messages, none older than `hours` hours; not positive means no limit. */
  datatype Limits = Limits(count: int, hours: int)

  predicate Distinct(messages: seq<Message>) {
    forall i, j | 0 <= i < j < |messages| :: messages[i].id != messages[j].id
  }

  predicate Expired(m: Message, limits: Limits, now: int) {
    limits.hours > 0 && m.at.Some? && m.at.value < now - limits.hours * 3600
  }

  /** How many of the oldest messages are too many, with this much tolerated. */
  function Excess(n: nat, limits: Limits, tolerated: int): nat {
    if limits.count > 0 && n > tolerated && n > limits.count then n - limits.count else 0
  }

  predicate Marked(messages: seq<Message>, i: nat, limits: Limits, now: int, tolerated: int)
    requires i < |messages|
  {
    Expired(messages[i], limits, now) || i < Excess(|messages|, limits, tolerated)
  }

  function Unmarked(messages: seq<Message>, n: nat, limits: Limits, now: int, tolerated: int): seq<Message>
    requires n <= |messages|
  {
    if n == 0 then []
    else Unmarked(messages, n - 1, limits, now, tolerated) +
         if Marked(messages, n - 1, limits, now, tolerated) then [] else [messages[n - 1]]
  }

  /** What is left of a channel, oldest first, when every close works. */
  function Pruned(messages: seq<Message>, limits: Limits, now: int, tolerated: int): seq<Message> {
    Unmarked(messages, |messages|, limits, now, tolerated)
  }

  class Channel {
    const reliable: bool  // closing a message always works
    var messages: seq<Message>  // the open ones, oldest first

    constructor (reliable: bool)
      ensures this.reliable == reliable && messages == []
    {
      this.reliable, messages := reliable, [];
    }

    /** `EnforceChannelRetention`, and with a tolerance above the count `PruneAllChannels` for
        one channel: mark by age and by number, then close what is marked, as far as that works. */
    method Enforce(limits: Limits, now: int, tolerated: int) returns (pruned: nat, ghost failed: set<string>)
      requires Distinct(messages) && tolerated >= limits.count
      modifies this
      ensures messages == LeftOf(old(messages), |old(messages)|, limits, now, tolerated, failed)
      ensures failed == {} ==> messages == Pruned(old(messages), limits, now, tolerated) && pruned + |messages| == |old(messages)|
      ensures reliable ==> failed == {}
    {
      failed := {};
      pruned := 0;
      if limits.count <= 0 && limits.hours <= 0 {
        NothingMarked(messages, |messages|, limits, now, tolerated);
        return;
      }
      var toDelete: set<string> := {};
      if limits.hours > 0 {
        var cutoff := now - limits.hours * 3600;
        for i := 0 to |messages|
          invariant messages == old(messages)
          invariant forall j | 0 <= j < |messages| :: messages[j].id in toDelete <==> j < i && Expired(messages[j], limits, now)
        {
          var at := messages[i].at;
          if at.None? {
            continue;
          }
          if at.value < cutoff {
            toDelete := toDelete + {messages[i].id};
          }
        }
      }
      if limits.count > 0 && |messages| > tolerated {
        var toDeleteByCount := |messages| - limits.count;
        var i := 0;
        while i < toDeleteByCount && i < |messages|
          invariant messages == old(messages) && 0 <= i <= |messages|
          invariant i <= if toDeleteByCount > 0 then toDeleteByCount else 0
          invariant forall j | 0 <= j < |messages| ::
                      messages[j].id in toDelete <==> Expired(messages[j], limits, now) || j < i
        {
          toDelete := toDelete + {messages[i].id};
          i := i + 1;
        }
      }
      assert forall j | 0 <= j < |messages| :: messages[j].id in toDelete <==> Marked(messages, j, limits, now, tolerated);
      pruned, failed := CloseAll(toDelete, limits, now, tolerated);
    }

    /** Close the marked messages one by one; what cannot be closed stays. */
    method CloseAll(toDelete: set<string>, ghost limits: Limits, ghost now: int, ghost tolerated: int)
      returns (pruned: nat, ghost failed: set<string>)
      requires Distinct(messages)
      requires forall j | 0 <= j < |messages| :: messages[j].id in toDelete <==> Marked(messages, j, limits, now, tolerated)
      modifies this
      ensures messages == LeftOf(old(messages), |old(messages)|, limits, now, tolerated, failed)
      ensures failed == {} ==> messages == Pruned(old(messages), limits, now, tolerated) && pruned + |messages| == |old(messages)|
      ensures reliable ==> failed == {}
    {
      failed, pruned := {}, 0;
      var left: seq<Message> := [];
      for i := 0 to |messages|
        invariant messages == old(messages)
        invariant left == LeftOf(messages, i, limits, now, tolerated, failed)
        invariant failed <= set j | 0 <= j < i :: messages[j].id
        invariant failed == {} ==> left == Unmarked(messages, i, limits, now, tolerated) && pruned + |left| == i
        invariant reliable ==> failed == {}
      {
        var m := messages[i];
        if m.id in toDelete {
          var closed: bool := *;
          if closed || reliable {
            pruned := pruned + 1;
          } else {
            FailureElsewhere(messages, i, limits, now, tolerated, failed, m.id);
            failed := failed + {m.id};
            left := left + [m];
          }
        } else {
          left := left + [m];
        }
      }
      messages := left;
    }
  }

  /** What is left when the closes of some messages fail. */
  ghost function LeftOf(messages: seq<Message>, n: nat, limits: Limits, now: int, tolerated: int, failed: set<string>): seq<Message>
    requires n <= |messages|
  {
    if n == 0 then []
    else LeftOf(messages, n - 1, limits, now, tolerated, failed) +
         if Marked(messages, n - 1, limits, now, tolerated) && messages[n - 1].id !in failed then [] else [messages[n - 1]]
  }

  lemma {:induction false} NothingMarked(messages: seq<Message>, n: nat, limits: Limits, now: int, tolerated: int)
    requires n <= |messages| && limits.count <= 0 && limits.hours <= 0
    ensures LeftOf(messages, n, limits, now, tolerated, {}) == messages[..n]
    ensures Unmarked(messages, n, limits, now, tolerated) == messages[..n]
  {
    if n > 0 {
      NothingMarked(messages, n - 1, limits, now, tolerated);
    }
  }

  lemma {:induction false} FailureElsewhere(messages: seq<Message>, n: nat, limits: Limits, now: int, tolerated: int, failed: set<string>, id: string)
    requires n <= |messages| && forall i | 0 <= i < n :: messages[i].id != id
    ensures LeftOf(messages, n, limits, now, tolerated, failed + {id}) == LeftOf(messages, n, limits, now, tolerated, failed)
  {
    if n > 0 {
      FailureElsewhere(messages, n - 1, limits, now, tolerated, failed, id);
    }
  }

  // ----- what pruning achieves -----

  lemma {:induction false} UnmarkedFacts(messages: seq<Message>, n: nat, limits: Limits, now: int, tolerated: int)
    requires n <= |messages|
    ensures var left := Unmarked(messages, n, limits, now, tolerated);
            var excess := Excess(|messages|, limits, tolerated);
            |left| <= (if n <= excess then 0 else n - excess) &&
            forall m | m in left :: exists i | 0 <= i < n :: messages[i] == m && !Marked(messages, i, limits, now, tolerated)
  {
    if n > 0 {
      UnmarkedFacts(messages, n - 1, limits, now, tolerated);
    }
  }

  lemma {:induction false} UnmarkedHas(messages: seq<Message>, n: nat, limits: Limits, now: int, tolerated: int, i: nat)
    requires i < n <= |messages| && !Marked(messages, i, limits, now, tolerated)
    ensures messages[i] in Unmarked(messages, n, limits, now, tolerated)
  {
    if i < n - 1 {
      UnmarkedHas(messages, n - 1, limits, now, tolerated, i);
    }
  }

  /** What is too old and what is too many, in seconds and positions. */
  lemma MarkedIs(messages: seq<Message>, i: nat, limits: Limits, now: int, tolerated: int)
    requires i < |messages| && tolerated >= limits.count
    ensures Marked(messages, i, limits, now, tolerated) <==>
            || (limits.hours > 0 && messages[i].at.Some? && now - messages[i].at.value > 60 * 60 * limits.hours)
            || (limits.count > 0 && |messages| > tolerated && |messages| - i > limits.count)
  {}

  /** Exactly the messages that are at most so many hours old, or of unknown age, survive; and once
      there are more than the tolerated number, only the latest, so many as the count says. */
  lemma Survives(messages: seq<Message>, i: nat, limits: Limits, now: int, tolerated: int)
    requires Distinct(messages) && tolerated >= limits.count && i < |messages|
    ensures messages[i] in Pruned(messages, limits, now, tolerated) <==>
            && (limits.hours > 0 && messages[i].at.Some? ==> now - messages[i].at.value <= 60 * 60 * limits.hours)
            && (limits.count > 0 && |messages| > tolerated ==> |messages| - i <= limits.count)
  {
    PrunedBounds(messages, limits, now, tolerated);
    MarkedIs(messages, i, limits, now, tolerated);
    hide Pruned, Distinct;
  }

  /** Nothing expired is left, no more than the tolerated number, no more than the count once
      that is passed; and exactly the messages that are neither expired nor too many survive. */
  lemma PrunedBounds(messages: seq<Message>, limits: Limits, now: int, tolerated: int)
    requires Distinct(messages) && tolerated >= limits.count
    ensures var left := Pruned(messages, limits, now, tolerated);
            && (forall m | m in left :: !Expired(m, limits, now))
            && (limits.count > 0 ==> |left| <= if |messages| > tolerated then limits.count else tolerated)
            && (forall i | 0 <= i < |messages| ::
                  messages[i] in left <==> !Expired(messages[i], limits, now) && i >= Excess(|messages|, limits, tolerated))
  {
    UnmarkedFacts(messages, |messages|, limits, now, tolerated);
    var left := Pruned(messages, limits, now, tolerated);
    forall i | 0 <= i < |messages| ensures messages[i] in left <==> !Marked(messages, i, limits, now, tolerated) {
      if !Marked(messages, i, limits, now, tolerated) {
        UnmarkedHas(messages, |messages|, limits, now, tolerated, i);
      }
    }
  }

  lemma {:induction false} AllUnmarked(messages: seq<Message>, n: nat, limits: Limits, now: int, tolerated: int)
    requires n <= |messages| && forall i | 0 <= i < n :: !Marked(messages, i, limits, now, tolerated)
    ensures Unmarked(messages, n, limits, now, tolerated) == messages[..n]
  {
    if n > 0 {
      AllUnmarked(messages, n - 1, limits, now, tolerated);
    }
  }

  /** Pruning again at the same time closes nothing. */
  lemma PrunedAgain(messages: seq<Message>, limits: Limits, now: int, tolerated: int)
    requires tolerated >= limits.count
    ensures var left := Pruned(messages, limits, now, tolerated);
            Pruned(left, limits, now, tolerated) == left
  {
    UnmarkedFacts(messages, |messages|, limits, now, tolerated);
    var left := Pruned(messages, limits, now, tolerated);
    assert Excess(|left|, limits, tolerated) == 0;
    forall i | 0 <= i < |left| ensures !Marked(left, i, limits, now, tolerated) {
      assert left[i] in left;
    }
    AllUnmarked(left, |left|, limits, now, tolerated);
  }
}
