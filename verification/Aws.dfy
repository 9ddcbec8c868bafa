/** Request metering. AWS is a list of replies, read one per request; past its end every
    request breaks. */
module Aws {
  const THROTTLE_RETRIES: nat := 3

  datatype Reply<T> = Answer(page: T) | Throttled | Refused | Broken
  datatype CallResult<T> = Got(page: T) | BudgetExceeded | CallFailed

  function ReplyAt<T>(replies: seq<Reply<T>>, i: nat): Reply<T> {
    if i < |replies| then replies[i] else Broken
  }

  /** The answers among the first `n` replies, in order. */
  function Answers<T>(replies: seq<Reply<T>>, n: nat): seq<T> {
    if n == 0 then []
    else
      Answers(replies, n - 1) + match ReplyAt(replies, n - 1)
                                case Answer(page) => [page]
                                case _ => []
  }

  /** After `n` replies a call gives up: the last one is broken or refused, or the fourth
      throttled one in a row. */
  ghost predicate GaveUp<T(!new)>(replies: seq<Reply<T>>, n: nat) {
    && n > 0
    && var last := ReplyAt(replies, n - 1);
    last.Broken? || last.Refused? ||
    (n > THROTTLE_RETRIES && forall i :: n - 1 - THROTTLE_RETRIES <= i < n ==> ReplyAt(replies, i) == Throttled)
  }

  /** Where a sequence of calls may go on: nothing was given up, and the last reply answered. */
  ghost predicate GoesOn<T(!new)>(replies: seq<Reply<T>>, at: nat) {
    && (forall n: nat :: n <= at ==> !GaveUp(replies, n))
    && (at > 0 ==> ReplyAt(replies, at - 1).Answer?)
  }

  /** Throttled replies add no answer. */
  lemma {:induction false} ThrottledOnly<T>(replies: seq<Reply<T>>, at: nat, n: nat)
    requires at <= n && forall i :: at <= i < n ==> !ReplyAt(replies, i).Answer?
    ensures Answers(replies, n) == Answers(replies, at)
  {
    if at < n {
      ThrottledOnly(replies, at, n - 1);
    }
  }

  /** A call that ran into throttled replies only did not give up before its last reply. */
  lemma NotBefore<T(!new)>(replies: seq<Reply<T>>, at: nat, next: nat)
    requires GoesOn(replies, at) && at < next <= at + THROTTLE_RETRIES + 1
    requires forall i :: at <= i < next - 1 ==> ReplyAt(replies, i) == Throttled
    ensures forall n: nat :: n < next ==> !GaveUp(replies, n)
    ensures ReplyAt(replies, next - 1).Answer? ==> GoesOn(replies, next)
  {
    forall n: nat | n < next
      ensures !GaveUp(replies, n)
    {
      if n > at {
        assert ReplyAt(replies, n - 1) == Throttled;
        if n > THROTTLE_RETRIES {
          assert at > 0 && ReplyAt(replies, at - 1).Answer? && n - 1 - THROTTLE_RETRIES <= at - 1 < n;
        }
      }
    }
  }

  // --- Following pages -----------------------------------------------------------------------------

  /** One page of an answer, and the token of the next page or the empty string. */
  datatype Page<T> = Page(content: T, token: string)

  /** Every page but the last names a new next page. */
  ghost predicate Linked<T>(pages: seq<Page<T>>) {
    && (forall i :: 0 <= i < |pages| - 1 ==> pages[i].token != "")
    && (forall i, j :: 0 <= i < j < |pages| - 1 ==> pages[i].token != pages[j].token)
  }

  /** Every page so far named a new next page. */
  ghost predicate Chain<T(!new)>(pages: seq<Page<T>>, seen: set<string>) {
    && (forall p :: p in pages ==> p.token != "")
    && (forall i, j :: 0 <= i < j < |pages| ==> pages[i].token != pages[j].token)
    && seen == set p | p in pages :: p.token
  }

  lemma NothingChained<T(!new)>()
    ensures Chain<T>([], {})
  {
  }

  lemma ChainNext<T(!new)>(pages: seq<Page<T>>, seen: set<string>, page: Page<T>)
    requires Chain(pages, seen)
    ensures Linked(pages + [page])
    ensures page.token != "" && page.token !in seen ==> Chain(pages + [page], seen + {page.token})
    ensures page.token in seen ==> exists i :: 0 <= i < |pages| && (pages + [page])[i].token == page.token != ""
  {
    if page.token in seen {
      var i :| 0 <= i < |pages| && pages[i].token == page.token;
      assert (pages + [page])[i].token == page.token;
    }
  }

  lemma ChainLinked<T(!new)>(pages: seq<Page<T>>, seen: set<string>)
    requires Chain(pages, seen)
    ensures Linked(pages) && forall p :: p in pages ==> p.token != ""
  {
  }

  // --- Reading replies -------------------------------------------------------------------------------

  lemma NothingRead<T(!new)>(replies: seq<Reply<T>>)
    ensures GoesOn(replies, 0) && Answers(replies, 0) == []
  {
  }

  lemma Steady<T(!new)>(replies: seq<Reply<T>>, at: nat)
    requires GoesOn(replies, at)
    ensures forall n: nat :: n <= at ==> !GaveUp(replies, n)
  {
  }

  /** What one more call reads. */
  lemma ReadOn<T(!new)>(replies: seq<Reply<T>>, at: nat, next: nat)
    requires GoesOn(replies, at) && at <= next <= at + THROTTLE_RETRIES + 1
    requires forall i :: at <= i < next - 1 ==> ReplyAt(replies, i) == Throttled
    ensures forall n: nat :: n < next ==> !GaveUp(replies, n)
    ensures next > at && ReplyAt(replies, next - 1).Answer? ==>
              GoesOn(replies, next) && Answers(replies, next) == Answers(replies, at) + [ReplyAt(replies, next - 1).page]
    ensures next == at || !ReplyAt(replies, next - 1).Answer? ==> Answers(replies, next) == Answers(replies, at)
    ensures next > at && !ReplyAt(replies, next - 1).Answer? && (ReplyAt(replies, next - 1) == Throttled ==> next == at + THROTTLE_RETRIES + 1) ==>
              GaveUp(replies, next)
  {
    if next > at {
      NotBefore(replies, at, next);
      ThrottledOnly(replies, at, next - 1);
    }
  }

  /** Counts requests of one job and caps them; `limit` zero means no cap. */
  class Meter {
    const limit: nat
    var requests: nat
    var pages: nat
    var throttled: nat

    constructor (limit: nat)
      ensures this.limit == limit && requests == pages == throttled == 0
    {
      this.limit := limit;
      requests, pages, throttled := 0, 0, 0;
    }

    predicate Spent()
      reads this
    {
      limit > 0 && requests >= limit
    }

    /** One call: an answer is preceded by throttled requests only, at most three retries are
        made, and the cap is never exceeded. */
    method Call<T>(replies: seq<Reply<T>>, at: nat) returns (result: CallResult<T>, next: nat)
      modifies this
      ensures at <= next <= at + THROTTLE_RETRIES + 1 && requests == old(requests) + (next - at)
      ensures limit > 0 && old(requests) <= limit ==> requests <= limit
      ensures next == at <==> old(Spent())
      ensures old(Spent()) ==> result == BudgetExceeded
      ensures !old(Spent()) && at < |replies| && replies[at].Answer? ==> result == Got(replies[at].page)
      ensures forall i :: at <= i < next - 1 ==> ReplyAt(replies, i) == Throttled
      ensures result.Got? ==> next > at && ReplyAt(replies, next - 1) == Answer(result.page)
      ensures result.BudgetExceeded? ==> Spent()
      ensures result.CallFailed? ==>
                var last := ReplyAt(replies, next - 1);
                last == Broken || last == Refused || (last == Throttled && next == at + THROTTLE_RETRIES + 1)
      ensures !result.Got? && next > at ==> !ReplyAt(replies, next - 1).Answer?
      ensures pages == old(pages) + if result.Got? then 1 else 0
      ensures throttled == old(throttled) +
                if next == at then 0
                else if result.BudgetExceeded? || ReplyAt(replies, next - 1) != Throttled then next - at - 1
                else THROTTLE_RETRIES
    {
      next := at;
      if Spent() {
        return BudgetExceeded, next;
      }
      var attempts := 0;
      while true
        invariant at + attempts == next && attempts <= THROTTLE_RETRIES
        invariant requests == old(requests) + (next - at) && pages == old(pages) && throttled == old(throttled) + attempts
        invariant !Spent()
        invariant forall i :: at <= i < next ==> ReplyAt(replies, i) == Throttled
        decreases THROTTLE_RETRIES - attempts
      {
        assert next > at ==> ReplyAt(replies, at) == Throttled;
        requests := requests + 1;
        var reply := ReplyAt(replies, next);
        next := next + 1;
        if reply.Answer? {
          pages := pages + 1;
          return Got(reply.page), next;
        }
        if reply.Broken? {
          return CallFailed, next;
        }
        attempts := attempts + 1;
        if Spent() {
          return BudgetExceeded, next;
        }
        if reply != Throttled || attempts > THROTTLE_RETRIES {
          return CallFailed, next;
        }
        throttled := throttled + 1;
      }
    }
  }
}
