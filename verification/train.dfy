/**
 * backend/ml/train.py: the epoch loop's bookkeeping (best validation loss,
 * best checkpoint, patience counter, history lists, progress lines, early
 * stop), the AUC fallbacks, and the choice of troubleshooting advice.
 *
 * The network, the optimiser and the metric computations are outside the
 * model: what an epoch observes is given by `observe(epoch)`.
 */
module Train {
  import opened Wrappers
  import opened Config

  /**
   * What epoch `e` observes: the mean training and validation losses, and the
   * validation ROC AUC when the binarised labels hold both classes (`None`
   * when they hold one).
   */
  datatype EpochStats = EpochStats(trainLoss: real, valLoss: real, auc: Option<real>)

  /** What `torch.save` records for the best model (the weights are not modelled). */
  datatype Checkpoint = Checkpoint(epoch: nat, valLoss: real, valAuc: real)

  /**
   * The loop's variables after some number of epochs. `best` is
   * `best_val_loss`, with `None` for `float("inf")`; `logged` lists the
   * epochs that printed a progress line.
   */
  datatype LoopState = LoopState(
    epochs: nat, best: Option<real>, counter: nat,
    trainLoss: seq<real>, valLoss: seq<real>, valAuc: seq<real>,
    checkpoint: Option<Checkpoint>, logged: seq<nat>, stopped: bool)

  const Initial: LoopState := LoopState(0, None, 0, [], [], [], None, [], false)

  /** `val_loss < best_val_loss`. */
  predicate Improves(v: real, best: Option<real>)
  {
    best.None? || v < best.value
  }

  /** The AUC recorded for an epoch: its own, else the previous epoch's, else 0.5. */
  function EpochAuc(e: EpochStats, history: seq<real>): real
  {
    match e.auc
    case Some(a) => a
    case None => if history == [] then 0.5 else history[|history| - 1]
  }

  /** One pass of the loop body, for epoch number `epoch`. */
  function Step(s: LoopState, epoch: nat, e: EpochStats): LoopState
  {
    var auc := EpochAuc(e, s.valAuc);
    var improved := Improves(e.valLoss, s.best);
    var counter := if improved then 0 else s.counter + 1;
    LoopState(
      s.epochs + 1,
      if improved then Some(e.valLoss) else s.best,
      counter,
      s.trainLoss + [e.trainLoss], s.valLoss + [e.valLoss], s.valAuc + [auc],
      if improved then Some(Checkpoint(epoch, e.valLoss, auc)) else s.checkpoint,
      if epoch % 5 == 0 || epoch == 1 || improved then s.logged + [epoch] else s.logged,
      counter >= EarlyStopPatience)
  }

  /** The state once the loop has dealt with epochs 1..k (it does nothing after stopping). */
  function Run(observe: nat -> EpochStats, k: nat): LoopState
  {
    if k == 0 then Initial
    else
      var s := Run(observe, k - 1);
      if s.stopped then s else Step(s, k, observe(k))
  }

  /** Validation loss at index i is strictly below every earlier one. */
  predicate StrictlyBest(vs: seq<real>, i: nat)
    requires i < |vs|
  {
    forall j :: 0 <= j < i ==> vs[i] < vs[j]
  }

  /** Index i holds the minimum of `vs`, and no earlier index does. */
  predicate FirstMinimum(vs: seq<real>, i: nat)
  {
    && i < |vs|
    && (forall j :: 0 <= j < |vs| ==> vs[i] <= vs[j])
    && (forall j :: 0 <= j < i ==> vs[i] < vs[j])
  }

  /** The AUC recorded at index i of the history `aucs`, given what epoch i + 1 observed. */
  function AucRule(observed: Option<real>, aucs: seq<real>, i: nat): real
    requires i < |aucs|
  {
    match observed
    case Some(a) => a
    case None => if i == 0 then 0.5 else aucs[i - 1]
  }

  /** The three history lists hold what epochs 1..s.epochs observed. */
  ghost predicate Histories(observe: nat -> EpochStats, s: LoopState)
  {
    && |s.trainLoss| == s.epochs && |s.valLoss| == s.epochs && |s.valAuc| == s.epochs
    && (forall i :: 0 <= i < s.epochs ==> s.trainLoss[i] == observe(i + 1).trainLoss)
    && (forall i :: 0 <= i < s.epochs ==> s.valLoss[i] == observe(i + 1).valLoss)
    && (forall i :: 0 <= i < s.epochs ==> s.valAuc[i] == AucRule(observe(i + 1).auc, s.valAuc, i))
  }

  /** `best_val_loss`, the checkpoint and the patience counter agree with the history. */
  predicate BestTracked(s: LoopState)
  {
    && |s.valLoss| == s.epochs && |s.valAuc| == s.epochs
    && (s.epochs == 0 <==> s.best.None?)
    && (s.epochs == 0 <==> s.checkpoint.None?)
    && (s.epochs == 0 ==> s.counter == 0)
    && (s.checkpoint.Some? ==>
          var c := s.checkpoint.value;
          && 1 <= c.epoch <= s.epochs
          && FirstMinimum(s.valLoss, c.epoch - 1)
          && s.best == Some(c.valLoss)
          && c.valLoss == s.valLoss[c.epoch - 1]
          && c.valAuc == s.valAuc[c.epoch - 1]
          && s.counter == s.epochs - c.epoch)
  }

  /** The progress lines: epoch 1, every fifth epoch, and every improvement. */
  ghost predicate LogTracked(s: LoopState)
  {
    |s.valLoss| == s.epochs && LoggedExactly(s.logged, s.valLoss)
  }

  /** `logged` holds epoch 1, every fifth epoch and every improvement among the epochs of `vs`. */
  ghost predicate LoggedExactly(logged: seq<nat>, vs: seq<real>)
  {
    forall e: nat :: e in logged <==> 1 <= e <= |vs| && (e == 1 || e % 5 == 0 || StrictlyBest(vs, e - 1))
  }

  lemma LogStep(logged: seq<nat>, vs: seq<real>, v: real, improved: bool)
    requires LoggedExactly(logged, vs)
    requires improved <==> StrictlyBest(vs + [v], |vs|)
    ensures var epoch := |vs| + 1;
            LoggedExactly(if epoch % 5 == 0 || epoch == 1 || improved then logged + [epoch] else logged, vs + [v])
  {
    var ws := vs + [v];
    forall i: nat | i < |vs|
      ensures StrictlyBest(ws, i) == StrictlyBest(vs, i)
    {
      assert forall j :: 0 <= j <= i ==> ws[j] == vs[j];
    }
  }

  /** Against a consistent state, `val_loss < best_val_loss` is a strict improvement on the history. */
  lemma ImprovesIffStrictlyBest(s: LoopState, v: real)
    requires BestTracked(s)
    ensures Improves(v, s.best) <==> StrictlyBest(s.valLoss + [v], s.epochs)
  {
    var vs := s.valLoss + [v];
    if s.best.Some? {
      var c := s.checkpoint.value;
      assert vs[c.epoch - 1] == c.valLoss;
      assert forall j :: 0 <= j < s.epochs ==> vs[j] == s.valLoss[j];
    }
  }

  lemma StepHistories(observe: nat -> EpochStats, s: LoopState, epoch: nat)
    requires Histories(observe, s) && epoch == s.epochs + 1
    ensures Histories(observe, Step(s, epoch, observe(epoch)))
  {
    var t := Step(s, epoch, observe(epoch));
    assert forall i :: 0 <= i < s.epochs ==> t.valAuc[i] == s.valAuc[i];
  }

  lemma StepBest(s: LoopState, epoch: nat, e: EpochStats)
    requires BestTracked(s) && epoch == s.epochs + 1
    ensures BestTracked(Step(s, epoch, e))
  {
    var t := Step(s, epoch, e);
    ImprovesIffStrictlyBest(s, e.valLoss);
    if !Improves(e.valLoss, s.best) {
      var c := s.checkpoint.value;
      assert t.valLoss[c.epoch - 1] == s.valLoss[c.epoch - 1];
      assert t.valAuc[c.epoch - 1] == s.valAuc[c.epoch - 1];
    }
  }

  lemma StepLog(s: LoopState, epoch: nat, e: EpochStats)
    requires BestTracked(s) && LogTracked(s) && epoch == s.epochs + 1
    ensures LogTracked(Step(s, epoch, e))
  {
    ImprovesIffStrictlyBest(s, e.valLoss);
    LogStep(s.logged, s.valLoss, e.valLoss, Improves(e.valLoss, s.best));
  }

  /** The loop has run all k epochs unless it stopped, and it stopped exactly when the counter reached the patience. */
  lemma {:induction false} RunShape(observe: nat -> EpochStats, k: nat)
    ensures var s := Run(observe, k);
            && s.epochs <= k
            && (!s.stopped ==> s.epochs == k && s.counter < EarlyStopPatience)
            && (s.stopped ==> s.counter == EarlyStopPatience)
  {
    if k > 0 {
      RunShape(observe, k - 1);
    }
  }

  lemma {:induction false} RunHistories(observe: nat -> EpochStats, k: nat)
    ensures Histories(observe, Run(observe, k))
  {
    if k > 0 {
      RunHistories(observe, k - 1);
      RunShape(observe, k - 1);
      var s := Run(observe, k - 1);
      if !s.stopped {
        assert Run(observe, k) == Step(s, k, observe(k));
        StepHistories(observe, s, k);
      }
    }
  }

  lemma {:induction false} RunTracked(observe: nat -> EpochStats, k: nat)
    ensures BestTracked(Run(observe, k)) && LogTracked(Run(observe, k))
  {
    if k > 0 {
      RunTracked(observe, k - 1);
      RunShape(observe, k - 1);
      var s := Run(observe, k - 1);
      if !s.stopped {
        assert Run(observe, k) == Step(s, k, observe(k));
        StepBest(s, k, observe(k));
        StepLog(s, k, observe(k));
      }
    }
  }

  /**
   * After epochs 1..k: the histories, the best-model bookkeeping and the
   * progress lines are consistent; the loop has run all k epochs unless it
   * stopped, and it stopped exactly when the counter reached the patience.
   */
  lemma RunConsistent(observe: nat -> EpochStats, k: nat)
    ensures var s := Run(observe, k);
            && Histories(observe, s) && BestTracked(s) && LogTracked(s)
            && s.epochs <= k
            && (!s.stopped ==> s.epochs == k && s.counter < EarlyStopPatience)
            && (s.stopped ==> s.counter == EarlyStopPatience)
  {
    RunShape(observe, k);
    RunHistories(observe, k);
    RunTracked(observe, k);
  }

  /** Once stopped, later epochs change nothing. */
  lemma {:induction false} RunStopped(observe: nat -> EpochStats, k: nat, m: nat)
    requires k <= m && Run(observe, k).stopped
    ensures Run(observe, m) == Run(observe, k)
    decreases m - k
  {
    if k < m {
      RunStopped(observe, k, m - 1);
    }
  }

  /**
   * After at least one epoch, `best_val_loss` is the smallest validation loss
   * seen, first reached at the checkpointed epoch, whose AUC the checkpoint
   * records; the patience counter is the number of epochs since.
   */
  lemma BestIsMinimum(observe: nat -> EpochStats, k: nat)
    requires 0 < k
    ensures var s := Run(observe, k);
            && s.best.Some? && s.checkpoint.Some?
            && |s.valLoss| == |s.valAuc| == s.epochs
            && 1 <= s.checkpoint.value.epoch <= s.epochs
            && s.best.value == s.checkpoint.value.valLoss == s.valLoss[s.checkpoint.value.epoch - 1]
            && s.checkpoint.value.valAuc == s.valAuc[s.checkpoint.value.epoch - 1]
            && (forall i :: 0 <= i < s.epochs ==> s.best.value <= s.valLoss[i])
            && (forall i :: 0 <= i < s.checkpoint.value.epoch - 1 ==> s.best.value < s.valLoss[i])
            && s.counter == s.epochs - s.checkpoint.value.epoch
  {
    RunConsistent(observe, k);
  }

  /**
   * The loop stops at the first epoch whose patience counter reaches the
   * patience, that is, the patience-th epoch after the checkpoint; when no
   * epoch does, it runs them all.
   */
  lemma StopsAtFirstExhaustedEpoch(observe: nat -> EpochStats, k: nat)
    ensures var s := Run(observe, k);
            && (s.stopped ==> s.checkpoint.Some?
                              && s.counter == EarlyStopPatience
                              && s.epochs - s.checkpoint.value.epoch == EarlyStopPatience
                              && forall j :: 0 <= j < s.epochs ==> !Run(observe, j).stopped)
            && (!s.stopped ==> s.epochs == k && s.counter < EarlyStopPatience)
  {
    RunConsistent(observe, k);
    var s := Run(observe, k);
    if s.stopped {
      forall j | 0 <= j < s.epochs
        ensures !Run(observe, j).stopped
      {
        RunConsistent(observe, j);
        if Run(observe, j).stopped {
          RunStopped(observe, j, k);
        }
      }
    }
  }

  /** The AUC history: each entry is the epoch's own AUC, or else the previous entry, or else 0.5. */
  lemma AucFallback(observe: nat -> EpochStats, k: nat)
    ensures var s := Run(observe, k);
            && |s.valAuc| == s.epochs
            && forall i :: 0 <= i < s.epochs ==>
                 s.valAuc[i] == match observe(i + 1).auc
                                case Some(a) => a
                                case None => if i == 0 then 0.5 else s.valAuc[i - 1]
  {
    RunConsistent(observe, k);
  }

  /**
   * One entry per completed epoch in each history list, holding that epoch's
   * losses, and a progress line exactly for epoch 1, multiples of 5 and
   * strict improvements.
   */
  lemma HistoryAndLog(observe: nat -> EpochStats, k: nat)
    ensures var s := Run(observe, k);
            && |s.trainLoss| == |s.valLoss| == |s.valAuc| == s.epochs
            && (forall i :: 0 <= i < s.epochs ==>
                  s.trainLoss[i] == observe(i + 1).trainLoss && s.valLoss[i] == observe(i + 1).valLoss)
            && forall e: nat :: e in s.logged <==>
                 1 <= e <= s.epochs && (e == 1 || e % 5 == 0 || StrictlyBest(s.valLoss, e - 1))
  {
    RunConsistent(observe, k);
  }

  /** The epoch loop of `train()`, over epochs 1..epochs with an early `break`. */
  method TrainLoop(observe: nat -> EpochStats) returns (s: LoopState)
    ensures s == Run(observe, Epochs)
  {
    var best: Option<real> := None;
    var counter: nat := 0;
    var trainLoss: seq<real> := [];
    var valLoss: seq<real> := [];
    var valAuc: seq<real> := [];
    var checkpoint: Option<Checkpoint> := None;
    var logged: seq<nat> := [];
    var epoch: nat := 1;
    var stopped := false;
    while epoch <= Epochs
      invariant 1 <= epoch <= Epochs + 1
      invariant LoopState(epoch - 1, best, counter, trainLoss, valLoss, valAuc, checkpoint, logged, false)
                == Run(observe, epoch - 1)
    {
      var e := observe(epoch);
      var auc := if e.auc.Some? then e.auc.value else if valAuc != [] then valAuc[|valAuc| - 1] else 0.5;
      trainLoss := trainLoss + [e.trainLoss];
      valLoss := valLoss + [e.valLoss];
      valAuc := valAuc + [auc];
      var flag := false;
      if best.None? || e.valLoss < best.value {
        best := Some(e.valLoss);
        counter := 0;
        checkpoint := Some(Checkpoint(epoch, e.valLoss, auc));
        flag := true;
      } else {
        counter := counter + 1;
      }
      if epoch % 5 == 0 || epoch == 1 || flag {
        logged := logged + [epoch];
      }
      if counter >= EarlyStopPatience {
        stopped := true;
        break;
      }
      epoch := epoch + 1;
    }
    if stopped {
      s := LoopState(epoch, best, counter, trainLoss, valLoss, valAuc, checkpoint, logged, true);
      RunStopped(observe, epoch, Epochs);
    } else {
      s := LoopState(Epochs, best, counter, trainLoss, valLoss, valAuc, checkpoint, logged, false);
    }
  }

  // ---------------------------------------------------------------------------
  // After the loop

  /** The test AUC: the score when both classes occur, else 0.5. */
  function TestAuc(nPos: nat, nNeg: nat, score: real): (auc: real)
    ensures nPos == 0 || nNeg == 0 ==> auc == 0.5
    ensures nPos > 0 && nNeg > 0 ==> auc == score
  {
    if nPos > 0 && nNeg > 0 then score else 0.5
  }

  const TargetAuc: real := 0.82

  datatype Advice = RandomModel | ModerateAuc | CloseToTarget

  /** `_print_troubleshooting`'s branch, taken only when the test AUC misses the target. */
  function Troubleshooting(testAuc: real): (r: Option<Advice>)
    ensures r.None? <==> testAuc >= TargetAuc
    ensures r == Some(RandomModel) <==> testAuc < 0.6
    ensures r == Some(ModerateAuc) <==> 0.6 <= testAuc < 0.75
    ensures r == Some(CloseToTarget) <==> 0.75 <= testAuc < TargetAuc
  {
    if testAuc >= TargetAuc then None
    else if testAuc < 0.6 then Some(RandomModel)
    else if testAuc < 0.75 then Some(ModerateAuc)
    else Some(CloseToTarget)
  }
}
