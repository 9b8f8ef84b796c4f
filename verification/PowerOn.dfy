/** A machine from power-on: the static tables are laid out, main runs, and the
    kernel is entered for the first time. */
module PowerOns {
  import opened Seqs
  import opened Forest
  import opened Nucleus
  import opened Safety
  import opened Pcbs
  import opened Asls
  import opened Kernels

  /** procTable: one pcb for each processor state, which is what its p_s holds. */
  method LayOutPcbs(cpus: seq<Cpu>) returns (t: seq<Pcb>)
    ensures |t| == |cpus| && IsTable(t) && Saved(t) == cpus
    ensures forall i :: 0 <= i < |t| ==> InTable(t, t[i]) && fresh(t[i])
  {
    t := [];
    while |t| < |cpus|
      invariant |t| <= |cpus| && IsTable(t)
      invariant forall i :: 0 <= i < |t| ==> fresh(t[i]) && t[i].s == cpus[i]
    {
      var p := new Pcb(|t|);
      p.s := cpus[|t|];
      t := t + [p];
    }
    assert Saved(t) == cpus;
  }

  /** semdTable: n different descriptors. */
  method LayOutSemds(n: nat) returns (t: seq<Semd>)
    ensures |t| == n && forall i, j :: 0 <= i < j < |t| ==> t[i] != t[j]
    ensures forall i :: 0 <= i < |t| ==> fresh(t[i])
  {
    t := [];
    while |t| < n
      invariant |t| <= n && forall i :: 0 <= i < |t| ==> fresh(t[i])
      invariant forall i, j :: 0 <= i < j < |t| ==> t[i] != t[j]
    {
      var s := new Semd();
      t := t + [s];
    }
  }

  /** The tables and the kernel's globals, before main. */
  method Build(cfg: Config, mem: map<Addr, int>, cpus: seq<Cpu>) returns (k: Kernel)
    requires |cpus| == cfg.n >= 1
    ensures fresh(k) && fresh(k.pool) && fresh(k.asl) && fresh(k.asl.nodes) && fresh(Objs(k.procTable))
    ensures k.cfg == cfg && k.mem == mem && !k.waitFlag && |k.procTable| == cfg.n
    ensures k.Static() && k.asl.Fresh() && Saved(k.procTable) == cpus
  {
    hide Saved;
    var t := LayOutPcbs(cpus);
    var d := LayOutSemds(cfg.n + 2);
    var pool := new PcbPool(t);
    var asl := new Asl(t, d);
    k := new Kernel(cfg, t, pool, asl, mem);
    assert Saved(t) == cpus;
  }

  /** The nucleus comes up on any image, with any contents of the pcbs. */
  method PowerOn(cfg: Config, mem: map<Addr, int>, cpus: seq<Cpu>, init: Cpu) returns (k: Kernel, o: Outcome)
    requires |cpus| == cfg.n >= 1 && Image(cfg, mem, cpus[0 := init])
    ensures fresh(k.Footprint()) && k.Rep() && Booted(k.st) && Inv(k.st)
    ensures o == Load(init) && Runner(k.st) == Some(0)
  {
    hide Image, Booted, Inv, Saved, Scheduler, FirstState, Runner, Kernel.Static, Kernel.Rep, Asl.Fresh;
    k := Build(cfg, mem, cpus);
    FirstLoad(cfg, mem, cpus[0 := init]);
    o := k.Boot(init);
  }

  /** main ends by loading the first process. */
  lemma FirstLoad(cfg: Config, mem: map<Addr, int>, cpus: seq<Cpu>)
    requires Image(cfg, mem, cpus)
    ensures cfg.n >= 1 && |cpus| == cfg.n && (forall p :: p in FirstState(cfg, mem, cpus).ready ==> p < |cpus|)
    ensures FirstState(cfg, mem, cpus).saved == cpus
    ensures var (s, o) := Scheduler(FirstState(cfg, mem, cpus)); o == Load(cpus[0]) && Runner(s) == Some(0)
  {
  }

  /** The first process uses up its quantum and, being alone, is loaded again. */
  method FirstQuantum(k: Kernel, area: Cpu) returns (o: Outcome)
    requires k.Rep() && Booted(k.st) && Inv(k.st) && Runner(k.st) == Some(0)
    modifies k.Footprint()
    ensures o == Load(area) && k.Rep() && Inv(k.st) && Runner(k.st) == Some(0)
  {
    ghost var s := k.st;
    Alone(s, area);
    o := k.Handle(IntQuantum(area));
  }

  lemma Alone(s: State, area: Cpu)
    requires Booted(s) && Inv(s) && Runner(s) == Some(0)
    ensures Enabled(s, IntQuantum(area)) && GoesOn(s, IntQuantum(area))
    ensures Step(s, IntQuantum(area)).1 == Load(area) && Runner(Step(s, IntQuantum(area)).0) == Some(0)
  {
  }
}
