/**
 * The Raman susceptibility tensor workflow of matmethods/vasp/workflows/base/raman.py.
 *
 * The external Firework constructors (OptimizeFW, LepsFW, Firework with a
 * RamanSusceptibilityTensorToDbTask) are modelled as records of the arguments
 * they receive. A parent reference is the position of the parent in the list
 * of Fireworks handed to the Workflow, since that list holds every node.
 */
module Raman {
  import opened Common

  /** A structure, reduced to what the workflow reads of it: `len(structure)`
      and `structure.composition.reduced_formula`. */
  datatype Structure = Structure(numSites: nat, reducedFormula: string)

  /** `MPRelaxSet(structure, force_gamma=...)`, an opaque input set. */
  datatype RelaxSet = MPRelaxSet(structure: Structure, forceGamma: bool)

  /** What a Firework runs, with the arguments its constructor receives. */
  datatype Step =
    | Optimize(structure: Structure, inputSet: RelaxSet, ediffg: real,
               vaspCmd: string, dbFile: Option<string>)
    | Leps(structure: Structure, vaspCmd: string, dbFile: Option<string>,
           phonon: bool, mode: Option<int>, displacement: Option<real>)
    | RamanAnalysis(dbFile: Option<string>)

  /** One node of the task graph. `parents` are positions in the workflow's
      node list; `name` is None where the constructor's own default is used. */
  datatype Firework = Firework(step: Step, parents: seq<nat>, name: Option<string>)

  datatype Workflow = Workflow(fws: seq<Firework>, name: string)

  /** The defaults of `get_wf_raman_spectra`'s keyword arguments. */
  const DefaultStepSize: real := 0.005
  const DefaultVaspCmd: string := "vasp"

  /** The force-convergence criterion given to the optimisation. */
  const OptimizeEdiffg: real := -0.05

  /** Python's `modes or range(3*len(structure))`: a missing or empty mode
      list stands for all 3N normal modes. */
  function ResolveModes(structure: Structure, modes: Option<seq<int>>): (r: seq<int>)
    ensures (modes.None? || modes.value == []) ==>
              |r| == 3 * structure.numSites && forall i :: 0 <= i < |r| ==> r[i] == i
    ensures (modes.Some? && modes.value != []) ==> r == modes.value
    ensures r == [] <==> structure.numSites == 0 && (modes.None? || modes.value == [])
  {
    if modes.Some? && modes.value != [] then modes.value
    else seq(3 * structure.numSites, i => i)
  }

  /** The two displacements along each mode, for the central difference. */
  function Displacements(stepSize: real): seq<real>
  {
    [-stepSize, stepSize]
  }

  function OptimizeNode(structure: Structure, vaspCmd: string, dbFile: Option<string>): Firework
  {
    Firework(Optimize(structure, MPRelaxSet(structure, true), OptimizeEdiffg, vaspCmd, dbFile), [], None)
  }

  /** The static run at zero displacement that computes the normal modes. */
  function PhononNode(structure: Structure, vaspCmd: string, dbFile: Option<string>, parent: nat): Firework
  {
    Firework(Leps(structure, vaspCmd, dbFile, true, None, None), [parent], None)
  }

  function DisplacedNode(structure: Structure, vaspCmd: string, dbFile: Option<string>,
                         parent: nat, mode: int, disp: real): Firework
  {
    Firework(Leps(structure, vaspCmd, dbFile, true, Some(mode), Some(disp)), [parent], None)
  }

  function AnalysisName(structure: Structure): string
  {
    structure.reducedFormula + "-raman analysis"
  }

  function WorkflowName(structure: Structure): string
  {
    structure.reducedFormula + ":raman spectra"
  }

  function AnalysisNode(structure: Structure, dbFile: Option<string>, parents: seq<nat>): Firework
  {
    Firework(RamanAnalysis(dbFile), parents, Some(AnalysisName(structure)))
  }

  /** The nodes the inner loop appends for one mode, one per displacement. */
  function ModeNodes(structure: Structure, vaspCmd: string, dbFile: Option<string>,
                     parent: nat, mode: int, disps: seq<real>): seq<Firework>
    decreases |disps|
  {
    if disps == [] then []
    else ModeNodes(structure, vaspCmd, dbFile, parent, mode, disps[..|disps| - 1])
         + [DisplacedNode(structure, vaspCmd, dbFile, parent, mode, disps[|disps| - 1])]
  }

  /** The nodes the nested loop appends: for each mode, for each displacement. */
  function DisplacedNodes(structure: Structure, vaspCmd: string, dbFile: Option<string>,
                          parent: nat, modes: seq<int>, disps: seq<real>): seq<Firework>
    decreases |modes|
  {
    if modes == [] then []
    else DisplacedNodes(structure, vaspCmd, dbFile, parent, modes[..|modes| - 1], disps)
         + ModeNodes(structure, vaspCmd, dbFile, parent, modes[|modes| - 1], disps)
  }

  /** The positions start, start + 1, ..., start + n - 1. */
  function Positions(start: nat, n: nat): seq<nat>
  {
    seq(n, k => start + k)
  }

  /** The workflow `get_wf_raman_spectra` returns, as a value. */
  function RamanWorkflow(structure: Structure, modes: Option<seq<int>> := None,
                         stepSize: real := DefaultStepSize, vaspCmd: string := DefaultVaspCmd,
                         dbFile: Option<string> := None): Workflow
  {
    var ms := ResolveModes(structure, modes);
    var disp := DisplacedNodes(structure, vaspCmd, dbFile, 1, ms, Displacements(stepSize));
    Workflow([OptimizeNode(structure, vaspCmd, dbFile), PhononNode(structure, vaspCmd, dbFile, 0)]
             + disp + [AnalysisNode(structure, dbFile, Positions(2, |disp|))],
             WorkflowName(structure))
  }

  /** `get_wf_raman_spectra`: the node list is built by appending, the
      displaced nodes by a nested loop over modes and displacements. */
  method GetWfRamanSpectra(structure: Structure, modes: Option<seq<int>> := None,
                           stepSize: real := DefaultStepSize, vaspCmd: string := DefaultVaspCmd,
                           dbFile: Option<string> := None) returns (wf: Workflow)
    ensures wf == RamanWorkflow(structure, modes, stepSize, vaspCmd, dbFile)
  {
    var ms := ResolveModes(structure, modes);
    var displacements := Displacements(stepSize);
    var fws: seq<Firework> := [];

    // structure optimization
    var optAt := |fws|;
    var fwOpt := Firework(Optimize(structure, MPRelaxSet(structure, true), OptimizeEdiffg, vaspCmd, dbFile),
                          [], None);
    fws := fws + [fwOpt];

    // static run computing the normal modes
    var lepsAt := |fws|;
    var fwLeps := Firework(Leps(structure, vaspCmd, dbFile, true, None, None), [optAt], None);
    fws := fws + [fwLeps];
    assert fws == [OptimizeNode(structure, vaspCmd, dbFile), PhononNode(structure, vaspCmd, dbFile, optAt)];

    // static runs for each mode and each displacement along it
    var fwsNmDisp: seq<Firework> := [];
    var i := 0;
    while i < |ms|
      invariant 0 <= i <= |ms|
      invariant fwsNmDisp == DisplacedNodes(structure, vaspCmd, dbFile, lepsAt, ms[..i], displacements)
    {
      ghost var done := fwsNmDisp;
      ghost var along: seq<Firework> := [];
      var j := 0;
      while j < |displacements|
        invariant 0 <= j <= |displacements|
        invariant fwsNmDisp == done + along
        invariant along == ModeNodes(structure, vaspCmd, dbFile, lepsAt, ms[i], displacements[..j])
      {
        ModeNodesSnoc(structure, vaspCmd, dbFile, lepsAt, ms[i], displacements, j);
        var fw := Firework(Leps(structure, vaspCmd, dbFile, true, Some(ms[i]), Some(displacements[j])),
                           [lepsAt], None);
        assert fw == DisplacedNode(structure, vaspCmd, dbFile, lepsAt, ms[i], displacements[j]);
        AppendAssoc(done, along, [fw]);
        fwsNmDisp := fwsNmDisp + [fw];
        along := along + [fw];
        j := j + 1;
      }
      assert displacements[..j] == displacements;
      DisplacedNodesSnoc(structure, vaspCmd, dbFile, lepsAt, ms, displacements, i);
      i := i + 1;
    }
    assert ms[..i] == ms;
    var dispAt := |fws|;
    fws := fws + fwsNmDisp;

    // the analysis depends on every displaced run
    var fwAnalysis := Firework(RamanAnalysis(dbFile), Positions(dispAt, |fwsNmDisp|),
                               Some(structure.reducedFormula + "-raman analysis"));
    fws := fws + [fwAnalysis];

    wf := Workflow(fws, structure.reducedFormula + ":raman spectra");
    assert fwAnalysis == AnalysisNode(structure, dbFile, Positions(2, |fwsNmDisp|));
  }

  lemma ModeNodesSnoc(structure: Structure, vaspCmd: string, dbFile: Option<string>,
                      parent: nat, mode: int, disps: seq<real>, j: nat)
    requires j < |disps|
    ensures ModeNodes(structure, vaspCmd, dbFile, parent, mode, disps[..j + 1])
            == ModeNodes(structure, vaspCmd, dbFile, parent, mode, disps[..j])
               + [DisplacedNode(structure, vaspCmd, dbFile, parent, mode, disps[j])]
  {
    assert disps[..j + 1][..j] == disps[..j];
  }

  lemma DisplacedNodesSnoc(structure: Structure, vaspCmd: string, dbFile: Option<string>,
                           parent: nat, modes: seq<int>, disps: seq<real>, i: nat)
    requires i < |modes|
    ensures DisplacedNodes(structure, vaspCmd, dbFile, parent, modes[..i + 1], disps)
            == DisplacedNodes(structure, vaspCmd, dbFile, parent, modes[..i], disps)
               + ModeNodes(structure, vaspCmd, dbFile, parent, modes[i], disps)
  {
    assert modes[..i + 1][..i] == modes[..i];
  }

  // ---------------------------------------------------------------------
  // Properties of the workflow

  lemma {:induction false} ModeNodesAt(structure: Structure, vaspCmd: string, dbFile: Option<string>,
                                       parent: nat, mode: int, disps: seq<real>, j: nat)
    requires j < |disps|
    ensures |ModeNodes(structure, vaspCmd, dbFile, parent, mode, disps)| == |disps|
    ensures ModeNodes(structure, vaspCmd, dbFile, parent, mode, disps)[j]
            == DisplacedNode(structure, vaspCmd, dbFile, parent, mode, disps[j])
  {
    var init := disps[..|disps| - 1];
    if j < |disps| - 1 {
      ModeNodesAt(structure, vaspCmd, dbFile, parent, mode, init, j);
    } else if |disps| > 1 {
      ModeNodesAt(structure, vaspCmd, dbFile, parent, mode, init, 0);
    }
  }

  lemma {:induction false} DisplacedNodesLength(structure: Structure, vaspCmd: string, dbFile: Option<string>,
                                                parent: nat, modes: seq<int>, disps: seq<real>)
    requires |disps| == 2
    ensures |DisplacedNodes(structure, vaspCmd, dbFile, parent, modes, disps)| == 2 * |modes|
  {
    if modes != [] {
      DisplacedNodesLength(structure, vaspCmd, dbFile, parent, modes[..|modes| - 1], disps);
      ModeNodesAt(structure, vaspCmd, dbFile, parent, modes[|modes| - 1], disps, 0);
    }
  }

  /** Within the displaced block, position 2*i + j holds mode i at displacement j. */
  lemma {:induction false} DisplacedNodeAt(structure: Structure, vaspCmd: string, dbFile: Option<string>,
                                           parent: nat, modes: seq<int>, disps: seq<real>, i: nat, j: nat)
    requires |disps| == 2 && i < |modes| && j < 2
    ensures |DisplacedNodes(structure, vaspCmd, dbFile, parent, modes, disps)| == 2 * |modes|
    ensures DisplacedNodes(structure, vaspCmd, dbFile, parent, modes, disps)[2 * i + j]
            == DisplacedNode(structure, vaspCmd, dbFile, parent, modes[i], disps[j])
  {
    var init := modes[..|modes| - 1];
    DisplacedNodesLength(structure, vaspCmd, dbFile, parent, modes, disps);
    DisplacedNodesLength(structure, vaspCmd, dbFile, parent, init, disps);
    if i < |modes| - 1 {
      DisplacedNodeAt(structure, vaspCmd, dbFile, parent, init, disps, i, j);
    } else {
      ModeNodesAt(structure, vaspCmd, dbFile, parent, modes[i], disps, j);
    }
  }

  /** The workflow has 2 * |modes| + 3 nodes, the mode list being resolved. */
  lemma WorkflowSize(structure: Structure, modes: Option<seq<int>>, stepSize: real,
                     vaspCmd: string, dbFile: Option<string>)
    ensures |RamanWorkflow(structure, modes, stepSize, vaspCmd, dbFile).fws|
            == 2 * |ResolveModes(structure, modes)| + 3
  {
    DisplacedNodesLength(structure, vaspCmd, dbFile, 1, ResolveModes(structure, modes), Displacements(stepSize));
  }

  /** Without a mode list, a structure of N sites gets 6N + 3 nodes. */
  lemma DefaultWorkflowSize(structure: Structure, stepSize: real, vaspCmd: string, dbFile: Option<string>)
    ensures |RamanWorkflow(structure, None, stepSize, vaspCmd, dbFile).fws| == 6 * structure.numSites + 3
  {
    WorkflowSize(structure, None, stepSize, vaspCmd, dbFile);
  }

  /** The optimisation comes first and has no parents; the phonon run comes
      second and its only parent is the optimisation. */
  lemma WorkflowHead(structure: Structure, modes: Option<seq<int>>, stepSize: real,
                     vaspCmd: string, dbFile: Option<string>)
    ensures var fws := RamanWorkflow(structure, modes, stepSize, vaspCmd, dbFile).fws;
      && |fws| >= 3
      && fws[0] == Firework(Optimize(structure, MPRelaxSet(structure, true), -0.05, vaspCmd, dbFile), [], None)
      && fws[1] == Firework(Leps(structure, vaspCmd, dbFile, true, None, None), [0], None)
  {
  }

  /** The displaced run for mode i and sign j sits at position 2 + 2*i + j:
      -stepSize before +stepSize, and its only parent is the phonon run. */
  lemma WorkflowDisplaced(structure: Structure, modes: Option<seq<int>>, stepSize: real,
                          vaspCmd: string, dbFile: Option<string>, i: nat, j: nat)
    requires i < |ResolveModes(structure, modes)| && j < 2
    ensures var fws := RamanWorkflow(structure, modes, stepSize, vaspCmd, dbFile).fws;
      && 2 + 2 * i + j < |fws| - 1
      && fws[2 + 2 * i + j]
         == Firework(Leps(structure, vaspCmd, dbFile, true, Some(ResolveModes(structure, modes)[i]),
                          Some(if j == 0 then -stepSize else stepSize)), [1], None)
  {
    var ms := ResolveModes(structure, modes);
    var ds := Displacements(stepSize);
    WorkflowSize(structure, modes, stepSize, vaspCmd, dbFile);
    DisplacedNodeAt(structure, vaspCmd, dbFile, 1, ms, ds, i, j);
  }

  /** The analysis run comes last, is named after the reduced formula, and its
      parents are exactly the displaced runs, in the order they were built. */
  lemma WorkflowAnalysis(structure: Structure, modes: Option<seq<int>>, stepSize: real,
                         vaspCmd: string, dbFile: Option<string>)
    ensures var wf := RamanWorkflow(structure, modes, stepSize, vaspCmd, dbFile);
      var last := wf.fws[|wf.fws| - 1];
      && last.step == RamanAnalysis(dbFile)
      && last.name == Some(structure.reducedFormula + "-raman analysis")
      && wf.name == structure.reducedFormula + ":raman spectra"
      && |last.parents| == 2 * |ResolveModes(structure, modes)|
      && (forall k :: 0 <= k < |last.parents| ==> last.parents[k] == 2 + k)
      && (forall p :: 0 <= p < |wf.fws| ==>
            (p in last.parents <==> wf.fws[p].step.Leps? && wf.fws[p].step.mode.Some?))
  {
    var wf := RamanWorkflow(structure, modes, stepSize, vaspCmd, dbFile);
    var ms := ResolveModes(structure, modes);
    WorkflowSize(structure, modes, stepSize, vaspCmd, dbFile);
    var last := wf.fws[|wf.fws| - 1];
    assert last.parents == Positions(2, 2 * |ms|);
    forall p | 0 <= p < |wf.fws|
      ensures p in last.parents <==> wf.fws[p].step.Leps? && wf.fws[p].step.mode.Some?
    {
      if 2 <= p < |wf.fws| - 1 {
        assert last.parents[p - 2] == p;
        WorkflowDisplaced(structure, modes, stepSize, vaspCmd, dbFile, (p - 2) / 2, (p - 2) % 2);
      }
    }
  }

  /** The analysis run has no parents exactly when the resolved mode list is
      empty, which happens only for a structure without sites. */
  lemma AnalysisParentless(structure: Structure, modes: Option<seq<int>>, stepSize: real,
                           vaspCmd: string, dbFile: Option<string>)
    ensures var fws := RamanWorkflow(structure, modes, stepSize, vaspCmd, dbFile).fws;
      fws[|fws| - 1].parents == [] <==> structure.numSites == 0 && (modes.None? || modes.value == [])
  {
    WorkflowAnalysis(structure, modes, stepSize, vaspCmd, dbFile);
  }

  /** Every edge goes from an earlier node to a later one: the graph is acyclic
      and every parent reference names a node of the workflow. */
  lemma WorkflowAcyclic(structure: Structure, modes: Option<seq<int>>, stepSize: real,
                        vaspCmd: string, dbFile: Option<string>)
    ensures var fws := RamanWorkflow(structure, modes, stepSize, vaspCmd, dbFile).fws;
      forall p, k :: 0 <= p < |fws| && 0 <= k < |fws[p].parents| ==> fws[p].parents[k] < p
  {
    var fws := RamanWorkflow(structure, modes, stepSize, vaspCmd, dbFile).fws;
    WorkflowAnalysis(structure, modes, stepSize, vaspCmd, dbFile);
    forall p, k | 0 <= p < |fws| && 0 <= k < |fws[p].parents|
      ensures fws[p].parents[k] < p
    {
      if 2 <= p < |fws| - 1 {
        WorkflowDisplaced(structure, modes, stepSize, vaspCmd, dbFile, (p - 2) / 2, (p - 2) % 2);
      }
    }
  }
}
