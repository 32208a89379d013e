// How long the reaper makes a recovered create wait for its read-back.
module ReapDelay {
  import opened Resolution
  import opened Protocol

  ghost predicate Covers(ids: seq<string>, runtime: map<string, Instance>, k: nat, largest: nat)
    requires k <= |ids|
  {
    forall j :: 0 <= j < k && ids[j] in runtime ==> runtime[ids[j]].createDeadline <= largest
  }

  ghost predicate Reached(ids: seq<string>, runtime: map<string, Instance>, largest: nat) {
    largest == 0 || exists j :: 0 <= j < |ids| && ids[j] in runtime && runtime[ids[j]].createDeadline == largest
  }

  // The largest create deadline of the registered instances that have a
  // configuration, plus the grace.
  method ReadBackDelayCeiling(ids: seq<string>, runtime: map<string, Instance>, grace: nat) returns (delay: nat)
    ensures delay >= grace && Covers(ids, runtime, |ids|, delay - grace) && Reached(ids, runtime, delay - grace)
  {
    var largest: nat := 0;
    var k := 0;
    while k < |ids|
      invariant k <= |ids| && Covers(ids, runtime, k, largest) && Reached(ids, runtime, largest)
    {
      if ids[k] in runtime && runtime[ids[k]].createDeadline > largest {
        largest := runtime[ids[k]].createDeadline;
      }
      k := k + 1;
    }
    delay := largest + grace;
  }

  // The settings of a run with an honest target: an instance without a configuration is never called, and
  // gets whatever deadline the delay covers.
  function EnvOf(cfg: Config, runtime: map<string, Instance>, threshold: int, delay: nat): Env
    requires delay >= cfg.readBackGrace
  {
    Env(cfg, i => if i in runtime then runtime[i] else Instance(delay - cfg.readBackGrace, false, false), threshold, delay, true)
  }

  // That delay is what the safety of creates asks of the reaper, as soon as no create
  // is given no time at all: a grace of 0 will do where the deadlines are positive.
  lemma CeilingIsLongEnough(cfg: Config, ids: seq<string>, runtime: map<string, Instance>, threshold: int, delay: nat)
    requires delay >= cfg.readBackGrace && Covers(ids, runtime, |ids|, delay - cfg.readBackGrace)
    requires forall i :: i in runtime ==> i in ids && runtime[i].createDeadline + cfg.readBackGrace > 0
    requires runtime != map[] || cfg.readBackGrace > 0
    ensures ValidEnv(EnvOf(cfg, runtime, threshold, delay))
  {
    var env := EnvOf(cfg, runtime, threshold, delay);
    forall i | i in runtime ensures 0 < runtime[i].createDeadline + cfg.readBackGrace <= delay {
      var j :| 0 <= j < |ids| && ids[j] == i;
      assert runtime[ids[j]].createDeadline <= delay - cfg.readBackGrace;
    }
    if runtime != map[] {
      var i :| i in runtime;
      assert 0 < delay;
    }
    forall i ensures 0 < env.inst(i).createDeadline + cfg.readBackGrace <= delay {}
  }
}
