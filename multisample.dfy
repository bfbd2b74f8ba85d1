/**
  * `try_renderbuffer_storage_multisample` (glr.rs): allocates multisample
  * storage for the bound renderbuffer with the largest sample count the
  * driver accepts, trying 16, 8, 4 and 2 in that order. Which counts the
  * driver accepts is a driver input, `Context.acceptedSamples`.
  */
module Multisample {
  import opened Wrappers
  import opened Gl

  /** The sample counts tried, best first. */
  const AllSamples: seq<i32> := [16, 8, 4, 2]

  /** The first of `candidates` that the driver accepts, if any. */
  function FirstAccepted(candidates: seq<i32>, accepted: set<i32>): Option<i32>
  {
    if candidates == [] then None
    else if candidates[0] in accepted then Some(candidates[0])
    else FirstAccepted(candidates[1..], accepted)
  }

  /** How many candidates a search tries: up to and including the first accepted one. */
  function Attempts(candidates: seq<i32>, accepted: set<i32>): (n: nat)
    ensures n <= |candidates|
  {
    if candidates == [] then 0
    else if candidates[0] in accepted then 1
    else 1 + Attempts(candidates[1..], accepted)
  }

  /**
    * The search finds nothing exactly when no candidate is accepted, and
    * otherwise the earliest accepted candidate, which is the last one tried.
    */
  lemma {:induction false} FirstAcceptedIsFirst(candidates: seq<i32>, accepted: set<i32>)
    ensures FirstAccepted(candidates, accepted).None? <==>
      forall i :: 0 <= i < |candidates| ==> candidates[i] !in accepted
    ensures FirstAccepted(candidates, accepted).None? ==> Attempts(candidates, accepted) == |candidates|
    ensures FirstAccepted(candidates, accepted).Some? ==>
      var n := Attempts(candidates, accepted);
      0 < n && candidates[n - 1] == FirstAccepted(candidates, accepted).value &&
      candidates[n - 1] in accepted &&
      forall j :: 0 <= j < n - 1 ==> candidates[j] !in accepted
  {
    if candidates != [] && candidates[0] !in accepted {
      FirstAcceptedIsFirst(candidates[1..], accepted);
      assert forall i :: 1 <= i < |candidates| ==> candidates[i] == candidates[1..][i - 1];
    }
  }

  /** Candidates known to be rejected can be skipped without changing the search. */
  lemma {:induction false} SkipRejected(candidates: seq<i32>, accepted: set<i32>, i: nat)
    requires i <= |candidates|
    requires forall j :: 0 <= j < i ==> candidates[j] !in accepted
    ensures FirstAccepted(candidates, accepted) == FirstAccepted(candidates[i..], accepted)
    ensures Attempts(candidates, accepted) == i + Attempts(candidates[i..], accepted)
  {
    if i == 0 {
      assert candidates[0..] == candidates;
    } else {
      SkipRejected(candidates[1..], accepted, i - 1);
      assert candidates[1..][i - 1..] == candidates[i..];
    }
  }

  /**
    * The commands of one attempt per entry of `tried`: purge the error, try
    * the storage, read the error back.
    */
  function AttemptCalls(target: nat, internalFormat: nat, width: i32, height: i32, tried: seq<i32>): (calls: seq<Call>)
    ensures |calls| == 3 * |tried|
  {
    if tried == [] then []
    else
      AttemptCalls(target, internalFormat, width, height, tried[..|tried| - 1]) +
      [Call.GetError, RenderbufferStorageMultisample(target, tried[|tried| - 1], internalFormat, width, height), Call.GetError]
  }

  /** The sample counts of the storage commands of `calls`, in order. */
  function StorageSamples(calls: seq<Call>): seq<i32>
  {
    if calls == [] then []
    else
      StorageSamples(calls[..|calls| - 1]) +
      if calls[|calls| - 1].RenderbufferStorageMultisample? then [calls[|calls| - 1].samples] else []
  }

  /**
    * The attempts try exactly the counts of `tried`, in order, and each
    * storage command comes right after a purge of the error state.
    */
  lemma {:induction false} AttemptsInOrder(target: nat, internalFormat: nat, width: i32, height: i32, tried: seq<i32>)
    ensures StorageSamples(AttemptCalls(target, internalFormat, width, height, tried)) == tried
    ensures var calls := AttemptCalls(target, internalFormat, width, height, tried);
      forall k :: 0 <= k < |calls| && calls[k].RenderbufferStorageMultisample? ==>
        0 < k && calls[k - 1] == Call.GetError
  {
    if tried != [] {
      var init := tried[..|tried| - 1];
      var s := tried[|tried| - 1];
      var c0 := AttemptCalls(target, internalFormat, width, height, init);
      var a := [Call.GetError, RenderbufferStorageMultisample(target, s, internalFormat, width, height), Call.GetError];
      AttemptsInOrder(target, internalFormat, width, height, init);
      StorageSamplesAppend(c0, a);
      assert StorageSamples(a) == [s] by {
        var st := RenderbufferStorageMultisample(target, s, internalFormat, width, height);
        assert a[..2] == [Call.GetError, st] && a[..2][..1] == [Call.GetError] && [Call.GetError][..0] == [];
        assert StorageSamples([Call.GetError]) == [];
        assert StorageSamples(a[..2]) == [s];
      }
      assert init + [s] == tried;
      var calls := c0 + a;
      forall k | 0 <= k < |calls| && calls[k].RenderbufferStorageMultisample?
        ensures 0 < k && calls[k - 1] == Call.GetError
      {
        if k < |c0| {
          assert calls[k] == c0[k];
        } else {
          assert k == |c0| + 1;
        }
      }
    }
  }

  lemma {:induction false} StorageSamplesAppend(a: seq<Call>, b: seq<Call>)
    ensures StorageSamples(a + b) == StorageSamples(a) + StorageSamples(b)
  {
    if b == [] {
      assert a + b == a;
    } else {
      StorageSamplesAppend(a, b[..|b| - 1]);
      assert (a + b)[..|a + b| - 1] == a + b[..|b| - 1];
    }
  }

  /**
    * `try_renderbuffer_storage_multisample`: for each count in 16, 8, 4, 2,
    * purges the pending error, tries the storage and returns the count as
    * soon as the driver reports no error; None when all four fail.
    */
  method TryRenderbufferStorageMultisample(gl: Context, target: nat, internalFormat: nat, width: i32, height: i32)
    returns (r: Option<i32>)
    modifies gl
    ensures r == FirstAccepted(AllSamples, gl.acceptedSamples)
    ensures gl.Snapshot() == old(gl.Snapshot()).(error := NO_ERROR)
    ensures gl.calls == old(gl.calls) +
      AttemptCalls(target, internalFormat, width, height, AllSamples[..Attempts(AllSamples, gl.acceptedSamples)])
  {
    var all := AllSamples;
    var i := 0;
    while i < |all|
      invariant 0 <= i <= |all|
      invariant forall j :: 0 <= j < i ==> all[j] !in gl.acceptedSamples
      invariant gl.Snapshot() == old(gl.Snapshot()).(error := gl.error)
      invariant i > 0 ==> gl.error == NO_ERROR
      invariant gl.calls == old(gl.calls) + AttemptCalls(target, internalFormat, width, height, all[..i])
    {
      var samples := all[i];
      var _ := gl.GetError();
      gl.StorageMultisample(target, samples, internalFormat, width, height);
      var code := gl.GetError();
      assert all[..i + 1][..i] == all[..i];
      assert gl.calls == old(gl.calls) + AttemptCalls(target, internalFormat, width, height, all[..i + 1]) by {
        AppendAssoc4(old(gl.calls), AttemptCalls(target, internalFormat, width, height, all[..i]),
          [Call.GetError], [RenderbufferStorageMultisample(target, samples, internalFormat, width, height)], [Call.GetError]);
      }
      if code == NO_ERROR {
        SkipRejected(all, gl.acceptedSamples, i);
        assert all[i..][0] == samples;
        return Some(samples);
      }
      i := i + 1;
    }
    SkipRejected(all, gl.acceptedSamples, i);
    assert all[..i] == all;
    return None;
  }

  /** A driver that takes at most four samples is asked for 16 and then 8 before 4 succeeds. */
  lemma FourSamplesAfterTwoRefusals(accepted: set<i32>)
    requires 16 !in accepted && 8 !in accepted && 4 in accepted
    ensures FirstAccepted(AllSamples, accepted) == Some(4)
    ensures Attempts(AllSamples, accepted) == 3
  {
    SkipRejected(AllSamples, accepted, 2);
    assert AllSamples[2..] == [4, 2];
  }
}
