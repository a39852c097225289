/** The end of a finalisation: the review loop, and then the merge of exactly the head that passed. */
module Finalization {
  import opened Wrappers
  import Merge
  import Review

  /** HEAD is the head of the last review, which passed. */
  predicate PassedAt(trace: seq<Review.Event>, start: Review.Sha, head: Review.Sha) {
    trace != [] && trace[|trace| - 1] == Review.Reviewed(head, Review.Pass) && head == Review.HeadAfter(start, trace)
  }

  /** A failing loop raises before any merge; a recovery never merges. */
  method FinishFinalization(
    world: nat -> Review.Round, start: Review.Sha,
    allowMerge: bool, github: nat -> Merge.View, paths: seq<string>, isProtected: string -> bool, branch: string)
    returns (result: Review.LoopResult, trace: seq<Review.Event>, outcome: Option<Merge.Outcome>, calls: seq<Merge.Call>)
    ensures Review.Reviews(trace) <= Review.MAX_FIX_ROUNDS + 1 && Review.CommitsAreVerified(trace)
    ensures outcome.Some? <==> result.ReviewPassed?
    ensures forall k :: 0 <= k < |calls| && calls[k].AskMerge?
              ==> && allowMerge && PassedAt(trace, start, calls[k].head)
                  && Merge.CleanBefore(calls, k, paths, isProtected, branch, calls[k].head)
    ensures Merge.MergesOnlyFit(calls, paths, isProtected, branch, Review.HeadAfter(start, trace)) && Review.InOrder(start, trace)
    ensures outcome.Some? && outcome.value.Merged? ==> exists k :: 0 <= k < |calls| && calls[k].AskMerge?
    ensures Merge.Truthful(calls, github)
  {
    var head;
    result, head, trace := Review.RunReviewFixLoop(world, start);
    outcome, calls := None, [];
    if result.ReviewPassed? {
      var ended;
      ended, calls := Merge.FinishReviewed(allowMerge, github, paths, isProtected, branch, head);
      outcome := Some(ended);
    }
  }
}
