/** What the listeners promise, over one event and over whole event streams. */
module LifecycleProperties {
  import opened PageState
  import opened Filters
  import opened Lifecycle

  /** Who moves `load`: start-loading sets LOADING, a failure that is not
      ignored sets FAILED, stop-loading promotes LOADING to LOADED and keeps
      any other phase, and every other event leaves `load` alone. */
  lemma LoadTransitions(ctx: Context, r: PageRecord, e: Event)
    ensures var l := Step(ctx, r, e).record.load;
      && (e.DidStartLoading? ==> l == Loading)
      && (e.DidFailLoad? && !IsIgnoredFailure(e.isMainFrame, e.errorCode) ==> l == Failed)
      && (e.DidStopLoading? ==> l == if r.load == Loading then Loaded else r.load)
      && (!MovesLoad(e) ==> l == r.load)
  {
  }

  /** Handling a stream piece by piece is handling it whole. */
  lemma {:induction false} RunAppend(ctx: Context, r: PageRecord, a: seq<Event>, b: seq<Event>)
    ensures var ra := Run(ctx, r, a);
      var rb := Run(ctx, ra.record, b);
      Run(ctx, r, a + b) == Outcome(rb.record, ra.effects + rb.effects)
    decreases |a|
  {
    if a == [] {
      assert a + b == b;
    } else {
      assert (a + b)[0] == a[0];
      assert (a + b)[1..] == a[1..] + b;
      RunAppend(ctx, Step(ctx, r, a[0]).record, a[1..], b);
    }
  }

  /** Once FAILED, the record stays FAILED until the next start-loading,
      whatever stop-loading, navigation or other events arrive. */
  lemma {:induction false} FailedSurvivesUntilStart(ctx: Context, r: PageRecord, evs: seq<Event>)
    requires r.load == Failed
    requires NoStart(evs)
    ensures Run(ctx, r, evs).record.load == Failed
    decreases |evs|
  {
    if evs != [] {
      assert NoStart(evs[1..]) by {
        forall i | 0 <= i < |evs| - 1 ensures !evs[1..][i].DidStartLoading? {
          assert evs[1..][i] == evs[i + 1];
        }
      }
      FailedSurvivesUntilStart(ctx, Step(ctx, r, evs[0]).record, evs[1..]);
    }
  }

  /** A failure that is not ignored, followed by stop-loading and any other
      events short of a new start-loading, leaves the page FAILED and its
      error page shown: stop-loading never overwrites a failure. */
  lemma FailureOutlivesStopLoading(ctx: Context, r: PageRecord, fail: Event,
                                   title: string, url: string, rest: seq<Event>)
    requires fail.DidFailLoad? && !IsIgnoredFailure(fail.isMainFrame, fail.errorCode)
    requires NoStart(rest)
    ensures var o := Run(ctx, r, [fail, DidStopLoading(title, url)] + rest);
      o.record.load == Failed && !ErrorPageHidden(o.record)
  {
    var r1 := Step(ctx, r, fail).record;
    var r2 := Step(ctx, r1, DidStopLoading(title, url)).record;
    assert r2.load == Failed;
    RunAppend(ctx, r, [fail, DidStopLoading(title, url)], rest);
    assert [fail, DidStopLoading(title, url)][1..] == [DidStopLoading(title, url)];
    assert [DidStopLoading(title, url)][1..] == [];
    assert Run(ctx, r1, [DidStopLoading(title, url)]).record == r2;
    assert Run(ctx, r, [fail, DidStopLoading(title, url)]).record == r2;
    FailedSurvivesUntilStart(ctx, r2, rest);
  }

  /** Only start-loading enters LOADING. */
  lemma {:induction false} NoLoadingWithoutStart(ctx: Context, r: PageRecord, evs: seq<Event>)
    requires r.load != Loading
    requires NoStart(evs)
    ensures Run(ctx, r, evs).record.load != Loading
    decreases |evs|
  {
    if evs != [] {
      assert NoStart(evs[1..]) by {
        forall i | 0 <= i < |evs| - 1 ensures !evs[1..][i].DidStartLoading? {
          assert evs[1..][i] == evs[i + 1];
        }
      }
      NoLoadingWithoutStart(ctx, Step(ctx, r, evs[0]).record, evs[1..]);
    }
  }

  /** Only stop-loading enters LOADED. */
  lemma {:induction false} NoLoadedWithoutStop(ctx: Context, r: PageRecord, evs: seq<Event>)
    requires r.load != Loaded
    requires NoStop(evs)
    ensures Run(ctx, r, evs).record.load != Loaded
    decreases |evs|
  {
    if evs != [] {
      assert NoStop(evs[1..]) by {
        forall i | 0 <= i < |evs| - 1 ensures !evs[1..][i].DidStopLoading? {
          assert evs[1..][i] == evs[i + 1];
        }
      }
      NoLoadedWithoutStop(ctx, Step(ctx, r, evs[0]).record, evs[1..]);
    }
  }

  /** Dropped events (finish-load, sub-frame in-page navigations, sub-frame
      and aborted failures, unknown ipc channels) change neither the record
      nor the command log. */
  lemma {:induction false} DroppedEventsInvisible(ctx: Context, r: PageRecord, evs: seq<Event>)
    requires forall i :: 0 <= i < |evs| ==> IsDropped(evs[i])
    ensures Run(ctx, r, evs) == Outcome(r, [])
    decreases |evs|
  {
    if evs != [] {
      assert IsDropped(evs[0]);
      assert forall i :: 0 <= i < |evs| - 1 ==> IsDropped(evs[1..][i]) by {
        forall i | 0 <= i < |evs| - 1 ensures IsDropped(evs[1..][i]) {
          assert evs[1..][i] == evs[i + 1];
        }
      }
      DroppedEventsInvisible(ctx, r, evs[1..]);
    }
  }

  /** A certificate error is fetched for `url` iff some failure in the stream
      that is not ignored looks like a certificate error and names `url`. */
  lemma {:induction false} CertificateFetchIff(ctx: Context, r: PageRecord, evs: seq<Event>, url: string)
    ensures GetCertificateError(ctx.pageId, url) in Run(ctx, r, evs).effects
            <==> exists i :: 0 <= i < |evs| && CertFailure(evs[i], url)
    decreases |evs|
  {
    if evs != [] {
      var first := Step(ctx, r, evs[0]);
      CertificateFetchIff(ctx, first.record, evs[1..], url);
      assert GetCertificateError(ctx.pageId, url) in first.effects <==> CertFailure(evs[0], url);
      assert (exists i :: 0 <= i < |evs| && CertFailure(evs[i], url)) <==>
             CertFailure(evs[0], url) || exists j :: 0 <= j < |evs[1..]| && CertFailure(evs[1..][j], url) by {
        if i :| 0 <= i < |evs| && CertFailure(evs[i], url) {
          if i > 0 {
            assert evs[1..][i - 1] == evs[i];
          }
        }
        if j :| 0 <= j < |evs[1..]| && CertFailure(evs[1..][j], url) {
          assert evs[j + 1] == evs[1..][j];
        }
      }
    }
  }

  /** One listener asks for a remote-history record exactly once for
      dom-ready and for a main-frame in-page navigation, and never otherwise. */
  lemma StepHistory(ctx: Context, r: PageRecord, e: Event)
    ensures multiset(Step(ctx, r, e).effects)[AddRemoteHistory(ctx.pageId)] ==
            if RecordsHistory(e) then 1 else 0
  {
  }

  /** The remote history is asked to record the page exactly once per
      dom-ready and once per main-frame in-page navigation. */
  lemma {:induction false} HistoryRecordedPerEvent(ctx: Context, r: PageRecord, evs: seq<Event>)
    ensures multiset(Run(ctx, r, evs).effects)[AddRemoteHistory(ctx.pageId)] == HistoryEvents(evs)
    decreases |evs|
  {
    if evs != [] {
      var first := Step(ctx, r, evs[0]);
      HistoryRecordedPerEvent(ctx, first.record, evs[1..]);
      StepHistory(ctx, r, evs[0]);
      assert multiset(Run(ctx, r, evs).effects) == multiset(first.effects) + multiset(Run(ctx, first.record, evs[1..]).effects);
    }
  }

  /** A failed record that carries its code and description keeps them,
      since a failure sets all three fields together. */
  lemma {:induction false} ErrorDetailsPreserved(ctx: Context, r: PageRecord, evs: seq<Event>)
    requires ErrorDetailsPresent(r)
    ensures ErrorDetailsPresent(Run(ctx, r, evs).record)
    decreases |evs|
  {
    if evs != [] {
      ErrorDetailsPreserved(ctx, Step(ctx, r, evs[0]).record, evs[1..]);
    }
  }

  lemma FocusFollowsURLBarAppend(p: string, a: seq<Effect>, b: seq<Effect>)
    requires FocusFollowsURLBar(p, a) && FocusFollowsURLBar(p, b)
    requires b != [] ==> !b[0].FocusURLBar?
    ensures FocusFollowsURLBar(p, a + b)
  {
  }

  /** One listener's commands keep the focus-after-URL-bar order. */
  lemma StepFocusFollowsURLBar(ctx: Context, r: PageRecord, e: Event)
    ensures var effs := Step(ctx, r, e).effects;
      FocusFollowsURLBar(ctx.tofinoProtocol, effs) && (effs != [] ==> !effs[0].FocusURLBar?)
  {
  }

  /** Whatever the stream, every URL-bar focus request is dispatched right
      after the URL-bar update it belongs to, and the log never opens with a
      focus request. */
  lemma {:induction false} FocusAlwaysFollowsURLBar(ctx: Context, r: PageRecord, evs: seq<Event>)
    ensures var effs := Run(ctx, r, evs).effects;
      FocusFollowsURLBar(ctx.tofinoProtocol, effs) && (effs != [] ==> !effs[0].FocusURLBar?)
    decreases |evs|
  {
    if evs != [] {
      var first := Step(ctx, r, evs[0]);
      var rest := Run(ctx, first.record, evs[1..]);
      FocusAlwaysFollowsURLBar(ctx, first.record, evs[1..]);
      StepFocusFollowsURLBar(ctx, r, evs[0]);
      FocusFollowsURLBarAppend(ctx.tofinoProtocol, first.effects, rest.effects);
      if first.effects != [] {
        assert (first.effects + rest.effects)[0] == first.effects[0];
      } else {
        assert first.effects + rest.effects == rest.effects;
      }
    }
  }

  /** Without a failure that is not ignored, `code` and `description` keep
      their values. */
  lemma {:induction false} ErrorDetailsKept(ctx: Context, r: PageRecord, evs: seq<Event>)
    requires NoCountedFailure(evs)
    ensures Run(ctx, r, evs).record.code == r.code
    ensures Run(ctx, r, evs).record.description == r.description
    decreases |evs|
  {
    if evs != [] {
      assert !IsCountedFailure(evs[0]);
      assert NoCountedFailure(evs[1..]) by {
        forall i | 0 <= i < |evs| - 1 ensures !IsCountedFailure(evs[1..][i]) {
          assert evs[1..][i] == evs[i + 1];
        }
      }
      ErrorDetailsKept(ctx, Step(ctx, r, evs[0]).record, evs[1..]);
    }
  }

  /** The code and description the error page shows are those of the last
      failure in the stream that is not ignored. */
  lemma LastFailureDetailsShown(ctx: Context, r: PageRecord, evs: seq<Event>, k: nat)
    requires k < |evs| && IsCountedFailure(evs[k])
    requires NoCountedFailure(evs[k + 1..])
    ensures Run(ctx, r, evs).record.code == Some(evs[k].errorCode)
    ensures Run(ctx, r, evs).record.description == Some(evs[k].errorDescription)
  {
    var before := Run(ctx, r, evs[..k]).record;
    assert evs == evs[..k] + ([evs[k]] + evs[k + 1..]);
    RunAppend(ctx, r, evs[..k], [evs[k]] + evs[k + 1..]);
    assert ([evs[k]] + evs[k + 1..])[0] == evs[k];
    assert ([evs[k]] + evs[k + 1..])[1..] == evs[k + 1..];
    var failed := Step(ctx, before, evs[k]).record;
    ErrorDetailsKept(ctx, failed, evs[k + 1..]);
  }
}
