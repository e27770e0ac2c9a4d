/**
 The project runner: deploy in declaration order, destroy in reverse, any operation may fail.  What each operation does
 is an input (`Fate`); the file system is the set of scaffolded directories; `started` holds the stacks on which `up`
 was started and that were not since destroyed successfully.
 */
module Runner {
  import opened Wrappers

  datatype SpellRef = SpellRef(spell: string, name: string)

  /** Scaffolding may fail before or after the Pulumi.yaml is there. */
  datatype ScaffoldFate = Written | FailsBefore | FailsAfter

  datatype Fate = Fate(scaffold: ScaffoldFate, workspaceOpens: bool, operationSucceeds: bool)

  const FINE := Fate(Written, true, true)

  datatype RunError = UnknownSpell | ScaffoldFailed | WorkspaceFailed | OperationFailed

  datatype World = World(scaffolded: set<string>, started: set<string>)

  const NOWHERE := World({}, {})

  // ---- The operations as functions of the world ------------------------------------------------------

  function EnsureDir(w: World, registry: set<string>, s: SpellRef, fate: Fate): Outcome<World, RunError> {
    if s.spell !in registry then Outcome(w, Some(UnknownSpell))
    else if s.name in w.scaffolded then Outcome(w, None)
    else match fate.scaffold
      case FailsBefore => Outcome(w, Some(ScaffoldFailed))
      case FailsAfter => Outcome(w.(scaffolded := w.scaffolded + {s.name}), Some(ScaffoldFailed))
      case Written => Outcome(w.(scaffolded := w.scaffolded + {s.name}), None)
  }

  function DeployOne(w: World, registry: set<string>, s: SpellRef, fate: Fate, preview: bool): Outcome<World,
      RunError> {
    var o := EnsureDir(w, registry, s, fate);
    if !o.Ok() then o
    else if !fate.workspaceOpens then Outcome(o.state, Some(WorkspaceFailed))
    else
      var after := if preview then o.state else o.state.(started := o.state.started + {s.name});
      Outcome(after, if fate.operationSucceeds then None else Some(OperationFailed))
  }

  /** Deploy the first n spells. */
  function Deploy(w: World, registry: set<string>, spells: seq<SpellRef>, fates: seq<Fate>, preview: bool,
      n: nat): Outcome<World, RunError>
    requires n <= |spells| == |fates|
  {
    if n == 0 then Outcome(w, None)
    else
      var o := Deploy(w, registry, spells, fates, preview, n - 1);
      if !o.Ok() then o else DeployOne(o.state, registry, spells[n - 1], fates[n - 1], preview)
  }

  function DestroyOne(w: World, s: SpellRef, fate: Fate): Outcome<World, RunError> {
    if s.name !in w.scaffolded then Outcome(w, None)
    else if !fate.workspaceOpens then Outcome(w, Some(WorkspaceFailed))
    else if !fate.operationSucceeds then Outcome(w, Some(OperationFailed))
    else Outcome(w.(started := w.started - {s.name}), None)
  }

  /** Destroy the spells from the last down to index n. */
  function Destroy(w: World, spells: seq<SpellRef>, fates: seq<Fate>, n: nat): Outcome<World, RunError>
    requires n <= |spells| == |fates|
    decreases |spells| - n
  {
    if n == |spells| then Outcome(w, None)
    else
      var o := Destroy(w, spells, fates, n + 1);
      if !o.Ok() then o else DestroyOne(o.state, spells[n], fates[n])
  }

  // ---- The loops -------------------------------------------------------------------------------------

  class Project {
    const registry: set<string>
    const spells: seq<SpellRef>
    var scaffolded: set<string>
    var started: set<string>

    function State(): World
      reads this
    {
      World(scaffolded, started)
    }

    constructor (registry: set<string>, spells: seq<SpellRef>)
      ensures this.registry == registry && this.spells == spells && State() == NOWHERE
    {
      this.registry, this.spells := registry, spells;
      scaffolded, started := {}, {};
    }

    method EnsureSpellDir(s: SpellRef, fate: Fate) returns (raised: Option<RunError>)
      modifies this`scaffolded
      ensures Outcome(State(), raised) == EnsureDir(old(State()), registry, s, fate)
    {
      if s.spell !in registry {
        return Some(UnknownSpell);
      }
      if s.name !in scaffolded {
        if fate.scaffold == FailsBefore {
          return Some(ScaffoldFailed);
        }
        scaffolded := scaffolded + {s.name};
        if fate.scaffold == FailsAfter {
          return Some(ScaffoldFailed);
        }
      }
      return None;
    }

    method DeployProject(preview: bool, fates: seq<Fate>) returns (raised: Option<RunError>)
      requires |fates| == |spells|
      modifies this
      ensures Outcome(State(), raised) == Deploy(old(State()), registry, spells, fates, preview, |spells|)
    {
      ghost var before := State();
      for i := 0 to |spells|
        invariant Outcome(State(), None) == Deploy(before, registry, spells, fates, preview, i)
      {
        ghost var visit := Deploy(before, registry, spells, fates, preview, i + 1);
        raised := EnsureSpellDir(spells[i], fates[i]);
        if raised.None? {
          if !fates[i].workspaceOpens {
            raised := Some(WorkspaceFailed);
          } else {
            if !preview {
              started := started + {spells[i].name};
            }
            raised := if fates[i].operationSucceeds then None else Some(OperationFailed);
          }
        }
        assert Outcome(State(), raised) == visit;
        if raised.Some? {
          DeployStops(before, registry, spells, fates, preview, i + 1, |spells|);
          return;
        }
      }
      return None;
    }

    method DestroyProject(fates: seq<Fate>) returns (raised: Option<RunError>)
      requires |fates| == |spells|
      modifies this`started
      ensures Outcome(State(), raised) == Destroy(old(State()), spells, fates, 0)
    {
      ghost var before := State();
      for i := |spells| downto 0
        invariant Outcome(State(), None) == Destroy(before, spells, fates, i)
      {
        if spells[i].name in scaffolded {
          raised := if !fates[i].workspaceOpens then Some(WorkspaceFailed)
                    else if !fates[i].operationSucceeds then Some(OperationFailed) else None;
          if raised.Some? {
            assert Outcome(State(), raised) == Destroy(before, spells, fates, i);
            DestroyStops(before, spells, fates, i, 0);
            return;
          }
          started := started - {spells[i].name};
        }
      }
      return None;
    }
  }

  lemma {:induction false} DeployStops(w: World, registry: set<string>, spells: seq<SpellRef>, fates: seq<Fate>,
      preview: bool, n: nat, m: nat)
    requires n <= m <= |spells| == |fates| && !Deploy(w, registry, spells, fates, preview, n).Ok()
    ensures Deploy(w, registry, spells, fates, preview, m) == Deploy(w, registry, spells, fates, preview, n)
  {
    if n < m {
      DeployStops(w, registry, spells, fates, preview, n, m - 1);
    }
  }

  lemma {:induction false} DestroyStops(w: World, spells: seq<SpellRef>, fates: seq<Fate>, n: nat, m: nat)
    requires m <= n <= |spells| == |fates| && !Destroy(w, spells, fates, n).Ok()
    ensures Destroy(w, spells, fates, m) == Destroy(w, spells, fates, n)
    decreases n - m
  {
    if m < n {
      DestroyStops(w, spells, fates, n, m + 1);
    }
  }

  // ---- Prefixes --------------------------------------------------------------------------------------

  function Names(spells: seq<SpellRef>): (s: seq<string>)
    ensures |s| == |spells| && forall i :: 0 <= i < |s| ==> s[i] == spells[i].name
  {
    seq(|spells|, i requires 0 <= i < |spells| => spells[i].name)
  }

  function Between(names: seq<string>, lo: nat, hi: nat): set<string>
    requires lo <= hi <= |names|
  {
    set i | lo <= i < hi :: names[i]
  }

  predicate IsPrefix(names: seq<string>, s: set<string>) {
    exists k :: 0 <= k <= |names| && s == Between(names, 0, k)
  }

  predicate FirstAt(names: seq<string>, i: nat) {
    i < |names| && forall k :: 0 <= k < i ==> names[k] != names[i]
  }

  predicate LastAt(names: seq<string>, i: nat) {
    i < |names| && forall k :: i < k < |names| ==> names[k] != names[i]
  }

  /** Everything declared before a member's first mention is a member. */
  ghost predicate DownClosed(names: seq<string>, s: set<string>) {
    && s <= Between(names, 0, |names|)
    && forall i: nat, j: nat :: i < j && FirstAt(names, j) && names[j] in s ==> names[i] in s
  }

  lemma {:induction false} FirstMention(names: seq<string>, i: nat) returns (j: nat)
    requires i < |names|
    ensures j <= i && names[j] == names[i] && FirstAt(names, j)
    decreases i
  {
    if k: nat :| k < i && names[k] == names[i] {
      j := FirstMention(names, k);
    } else {
      j := i;
    }
  }

  lemma {:induction false} LastMention(names: seq<string>, i: nat) returns (j: nat)
    requires i < |names|
    ensures i <= j < |names| && names[j] == names[i] && LastAt(names, j)
    decreases |names| - i
  {
    if k: nat :| i < k < |names| && names[k] == names[i] {
      j := LastMention(names, k);
    } else {
      j := i;
    }
  }

  lemma {:induction false} LongestPrefix(names: seq<string>, s: set<string>, from: nat) returns (k: nat)
    requires from <= |names| && forall i :: 0 <= i < from ==> names[i] in s
    ensures from <= k <= |names| && (forall i :: 0 <= i < k ==> names[i] in s) && (k < |names| ==> names[k] !in s)
    decreases |names| - from
  {
    if from < |names| && names[from] in s {
      k := LongestPrefix(names, s, from + 1);
    } else {
      k := from;
    }
  }

  lemma DownClosedIsPrefix(names: seq<string>, s: set<string>)
    ensures DownClosed(names, s) <==> IsPrefix(names, s)
  {
    if DownClosed(names, s) {
      var k := LongestPrefix(names, s, 0);
      forall x | x in s
        ensures x in Between(names, 0, k)
      {
        var i :| 0 <= i < |names| && names[i] == x;
        var j := FirstMention(names, i);
        assert j < k;
      }
      assert s == Between(names, 0, k);
    }
    if IsPrefix(names, s) {
      var k :| 0 <= k <= |names| && s == Between(names, 0, k);
      forall i: nat, j: nat | i < j && FirstAt(names, j) && names[j] in s
        ensures names[i] in s
      {
        var m :| 0 <= m < k && names[m] == names[j];
        assert j <= m;
      }
    }
  }

  /** Two names, first mentioned at i and then j, are last mentioned at i' and j' the other way round. */
  predicate Crossed(names: seq<string>, i: nat, j: nat, i': nat, j': nat) {
    && i < j && FirstAt(names, i) && FirstAt(names, j) && LastAt(names, i') && LastAt(names, j')
    && names[i'] == names[i] && names[j'] == names[j] && j' <= i'
  }

  /** Names first mentioned before index n are last mentioned in the order in which they are first mentioned. */
  ghost predicate OrderKept(names: seq<string>, n: nat) {
    forall i: nat, j: nat, i': nat, j': nat :: j < n ==> !Crossed(names, i, j, i', j')
  }

  lemma DistinctNamesKeepOrder(names: seq<string>, n: nat)
    requires forall i, j :: 0 <= i < j < |names| ==> names[i] != names[j]
    ensures OrderKept(names, n)
  {
  }

  /** How many spells a deploy can reach: those before the first whose type is not registered. */
  function Reach(registry: set<string>, spells: seq<SpellRef>): (n: nat)
    ensures n <= |spells| && (forall i :: 0 <= i < n ==> spells[i].spell in registry)
    ensures n < |spells| ==> spells[n].spell !in registry
  {
    if spells == [] || spells[0].spell !in registry then 0 else 1 + Reach(registry, spells[1..])
  }

  // ---- What one operation does to the started stacks -------------------------------------------------

  lemma PrefixGrows(names: seq<string>, n: nat)
    requires 0 < n <= |names|
    ensures Between(names, 0, n) == Between(names, 0, n - 1) + {names[n - 1]}
  {
  }

  lemma DeployOneStarts(w: World, registry: set<string>, s: SpellRef, fate: Fate, preview: bool)
    requires w.started <= w.scaffolded
    ensures var o := DeployOne(w, registry, s, fate, preview);
            && o.state.started <= o.state.scaffolded && w.scaffolded <= o.state.scaffolded
            && (o.state.started == w.started
                || (!preview && s.spell in registry && o.state.started == w.started + {s.name}))
            && (o.Ok() ==> s.spell in registry && (!preview ==> o.state.started == w.started + {s.name}))
  {
  }

  lemma {:induction false} DeployAddsPrefix(w: World, registry: set<string>, spells: seq<SpellRef>, fates: seq<Fate>,
      preview: bool, n: nat)
    returns (m: nat)
    requires n <= |spells| == |fates| && w.started <= w.scaffolded
    ensures m <= n && m <= Reach(registry, spells)
    ensures Deploy(w, registry, spells, fates, preview, n).Ok() ==> n <= Reach(registry, spells)
    ensures var o, names := Deploy(w, registry, spells, fates, preview, n), Names(spells);
            && o.state.started == w.started + Between(names, 0, m)
            && o.state.started <= o.state.scaffolded && w.scaffolded <= o.state.scaffolded
            && (o.Ok() && !preview ==> m == n)
  {
    m := 0;
    if n > 0 {
      m := DeployAddsPrefix(w, registry, spells, fates, preview, n - 1);
      var before := Deploy(w, registry, spells, fates, preview, n - 1);
      if before.Ok() {
        hide EnsureDir, DeployOne, Between;
        DeployOneStarts(before.state, registry, spells[n - 1], fates[n - 1], preview);
        PrefixGrows(Names(spells), n);
        if Deploy(w, registry, spells, fates, preview, n).state.started != before.state.started
           || (!preview && Deploy(w, registry, spells, fates, preview, n).Ok()) {
          m := n;
        }
      }
    }
  }

  lemma {:induction false} DestroyRemovesSuffix(w: World, spells: seq<SpellRef>, fates: seq<Fate>,
      n: nat) returns (m: nat)
    requires n <= |spells| == |fates| && w.started <= w.scaffolded
    ensures n <= m <= |spells|
    ensures var o, names := Destroy(w, spells, fates, n), Names(spells);
            && o.state.started == w.started - Between(names, m, |names|)
            && o.state.scaffolded == w.scaffolded
            && (o.Ok() ==> m == n)
    decreases |spells| - n
  {
    var names := Names(spells);
    if n == |spells| {
      m := n;
      assert Between(names, n, |names|) == {};
    } else {
      m := DestroyRemovesSuffix(w, spells, fates, n + 1);
      if Destroy(w, spells, fates, n).Ok() {
        assert Between(names, n, |names|) == Between(names, n + 1, |names|) + {names[n]};
        m := n;
      }
    }
  }

  // ---- What one invocation does, exactly -------------------------------------------------------------

  /** What goes wrong with one spell of a deploy; scaffolding is attempted only where nothing is scaffolded. */
  function DeployFault(scaffolded: set<string>, registry: set<string>, s: SpellRef, fate: Fate): Option<RunError> {
    if s.spell !in registry then Some(UnknownSpell)
    else if s.name !in scaffolded && fate.scaffold != Written then Some(ScaffoldFailed)
    else if !fate.workspaceOpens then Some(WorkspaceFailed)
    else if !fate.operationSucceeds then Some(OperationFailed)
    else None
  }

  /** The directories there are when the first m spells have been deployed. */
  function Known(w: World, spells: seq<SpellRef>, m: nat): set<string>
    requires m <= |spells|
  {
    w.scaffolded + Between(Names(spells), 0, m)
  }

  /** The spells before index m were deployed without a fault. */
  predicate Deployed(w: World, registry: set<string>, spells: seq<SpellRef>, fates: seq<Fate>, m: nat)
    requires m <= |spells| == |fates|
  {
    forall i :: 0 <= i < m ==>
      DeployFault(Known(w, spells, i), registry, spells[i], fates[i]) == None
  }

  /** The directory is there after the attempt: it was before, or writing got as far as its manifest. */
  predicate Scaffolds(scaffolded: set<string>, registry: set<string>, s: SpellRef, fate: Fate) {
    s.spell in registry && (s.name in scaffolded || fate.scaffold != FailsBefore)
  }

  lemma DeployOneExact(w: World, registry: set<string>, s: SpellRef, fate: Fate, preview: bool)
    ensures var o, fault := DeployOne(w, registry, s, fate, preview), DeployFault(w.scaffolded, registry, s, fate);
            && o.raised == fault
            && o.state.scaffolded == w.scaffolded
                + (if Scaffolds(w.scaffolded, registry, s, fate) then {s.name} else {})
            && o.state.started == w.started
               + if !preview && (fault == None || fault == Some(OperationFailed)) then {s.name} else {}
  {
  }

  /** The world when the first m spells have been deployed. */
  function Reached(w: World, spells: seq<SpellRef>, preview: bool, m: nat): World
    requires m <= |spells|
  {
    World(Known(w, spells, m), if preview then w.started else w.started + Between(Names(spells), 0, m))
  }

  /** The world when the deploy then stopped at spell m, whose operation may have been started. */
  function Halted(w: World, registry: set<string>, spells: seq<SpellRef>, fates: seq<Fate>, preview: bool,
      m: nat): World
    requires m < |spells| == |fates|
  {
    var r, name := Reached(w, spells, preview, m), spells[m].name;
    var fault := DeployFault(r.scaffolded, registry, spells[m], fates[m]);
    World(r.scaffolded + (if Scaffolds(r.scaffolded, registry, spells[m], fates[m]) then {name} else {}),
          r.started + if !preview && fault == Some(OperationFailed) then {name} else {})
  }

  lemma {:induction false} ReachOneMore(w: World, registry: set<string>, spells: seq<SpellRef>, fates: seq<Fate>,
      preview: bool, m: nat)
    requires m < |spells| == |fates|
    ensures var fault := DeployFault(Known(w, spells, m), registry, spells[m], fates[m]);
            DeployOne(Reached(w, spells, preview, m), registry, spells[m], fates[m], preview)
            == if fault == None then Outcome(Reached(w, spells, preview, m + 1), None)
               else Outcome(Halted(w, registry, spells, fates, preview, m), fault)
  {
    hide DeployOne, DeployFault, Scaffolds, Between;
    var r := Reached(w, spells, preview, m);
    DeployOneExact(r, registry, spells[m], fates[m], preview);
    PrefixGrows(Names(spells), m + 1);
    var o, names, name := DeployOne(r, registry, spells[m], fates[m], preview), Between(Names(spells), 0, m),
        spells[m].name;
    if DeployFault(r.scaffolded, registry, spells[m], fates[m]) == None {
      NoFaultScaffolds(r.scaffolded, registry, spells[m], fates[m]);
      assert w.scaffolded + names + {name} == w.scaffolded + (names + {name});
      assert w.started + names + {name} == w.started + (names + {name});
      assert o.state.started == Reached(w, spells, preview, m + 1).started;
    } else {
      assert o.state == Halted(w, registry, spells, fates, preview, m);
    }
  }

  lemma ReachedNone(w: World, spells: seq<SpellRef>, preview: bool)
    ensures Reached(w, spells, preview, 0) == w
  {
    assert Between(Names(spells), 0, 0) == {};
  }

  lemma DeployedOneMore(w: World, registry: set<string>, spells: seq<SpellRef>, fates: seq<Fate>, m: nat)
    requires m < |spells| == |fates|
    ensures Deployed(w, registry, spells, fates, m + 1) <==>
            && Deployed(w, registry, spells, fates, m)
            && DeployFault(Known(w, spells, m), registry, spells[m], fates[m]) == None
  {
    hide DeployFault, Known;
  }

  /**
   A deploy, exactly: it goes through the spells in order up to the first with a fault, and raises that fault; it
   starts all spells before it, and it too when only the operation failed; a preview starts none.  Existing directories
   are kept.
   */
  lemma {:induction false} DeployExact(w: World, registry: set<string>, spells: seq<SpellRef>, fates: seq<Fate>,
      preview: bool, n: nat)
    returns (m: nat)
    requires n <= |spells| == |fates|
    ensures m <= n && Deployed(w, registry, spells, fates, m)
    ensures m == n ==> Deploy(w, registry, spells, fates, preview, n) == Outcome(Reached(w, spells, preview, n), None)
    ensures m < n ==>
              var fault := DeployFault(Known(w, spells, m), registry, spells[m], fates[m]);
              && fault != None
              && Deploy(w, registry, spells, fates, preview, n)
                  == Outcome(Halted(w, registry, spells, fates, preview, m), fault)
  {
    hide DeployOne, DeployFault, Halted, Reached, Known, Deployed;
    if n == 0 {
      m := 0;
      ReachedNone(w, spells, preview);
      NothingDeployed(w, registry, spells, fates);
    } else {
      m := DeployExact(w, registry, spells, fates, preview, n - 1);
      if m == n - 1 {
        ReachOneMore(w, registry, spells, fates, preview, m);
        DeployedOneMore(w, registry, spells, fates, m);
        if DeployFault(Known(w, spells, m), registry, spells[m], fates[m]) == None {
          m := n;
        }
      }
    }
  }

  lemma NothingDeployed(w: World, registry: set<string>, spells: seq<SpellRef>, fates: seq<Fate>)
    requires |spells| == |fates|
    ensures Deployed(w, registry, spells, fates, 0)
  {
  }

  lemma NoFaultScaffolds(scaffolded: set<string>, registry: set<string>, s: SpellRef, fate: Fate)
    requires DeployFault(scaffolded, registry, s, fate) == None
    ensures Scaffolds(scaffolded, registry, s, fate)
  {
  }

  /** The fates differ at most in scaffolding what is scaffolded already. */
  predicate SameButScaffolded(w: World, spells: seq<SpellRef>, a: seq<Fate>, b: seq<Fate>)
    requires |spells| == |a| == |b|
  {
    forall i :: 0 <= i < |spells| ==>
      a[i] == b[i] || (spells[i].name in w.scaffolded && a[i].(scaffold := Written) == b[i].(scaffold := Written))
  }

  /** Existing directories are kept: how scaffolding them would have gone makes no difference. */
  lemma {:induction false} ExistingKept(w: World, registry: set<string>, spells: seq<SpellRef>, a: seq<Fate>,
      b: seq<Fate>,
      preview: bool, n: nat)
    requires n <= |spells| == |a| == |b| && SameButScaffolded(w, spells, a, b)
    ensures Deploy(w, registry, spells, a, preview, n) == Deploy(w, registry, spells, b, preview, n)
    ensures w.scaffolded <= Deploy(w, registry, spells, a, preview, n).state.scaffolded
  {
    if n > 0 {
      ExistingKept(w, registry, spells, a, b, preview, n - 1);
    }
  }

  /**
   With everything scaffolded and registered, a deploy succeeds exactly when every workspace opens and every operation
   succeeds.
   */
  lemma {:induction false} ScaffoldedDeploy(w: World, registry: set<string>, spells: seq<SpellRef>, fates: seq<Fate>,
      preview: bool)
    requires |spells| == |fates| && forall s :: s in spells ==> s.name in w.scaffolded && s.spell in registry
    ensures var o := Deploy(w, registry, spells, fates, preview, |spells|);
            && o.raised != Some(ScaffoldFailed) && o.raised != Some(UnknownSpell)
            && (o.Ok() <==> forall f :: f in fates ==> f.workspaceOpens && f.operationSucceeds)
            && o.state.scaffolded == w.scaffolded
  {
    var m := DeployExact(w, registry, spells, fates, preview, |spells|);
    var names := Names(spells);
    assert forall i :: 0 <= i < |spells| ==> spells[i] in spells;
    assert Between(names, 0, m) <= w.scaffolded;
    if m < |spells| {
      assert fates[m] in fates;
    } else {
      forall f | f in fates
        ensures f.workspaceOpens && f.operationSucceeds
      {
        var i :| 0 <= i < |fates| && fates[i] == f;
        assert DeployFault(Known(w, spells, i), registry, spells[i], fates[i]) == None;
      }
    }
  }

  /** What goes wrong with one spell of a destroy; spells without a directory are skipped. */
  function DestroyFault(scaffolded: set<string>, s: SpellRef, fate: Fate): Option<RunError> {
    if s.name !in scaffolded then None
    else if !fate.workspaceOpens then Some(WorkspaceFailed)
    else if !fate.operationSucceeds then Some(OperationFailed)
    else None
  }

  /**
   A destroy, exactly: it goes through the spells from the last up to the first with a fault, raises that fault, and
   leaves started what it did not get to; no directory is removed.
   */
  lemma {:induction false} DestroyExact(w: World, spells: seq<SpellRef>, fates: seq<Fate>, n: nat) returns (m: nat)
    requires n <= |spells| == |fates|
    ensures n <= m <= |spells|
    ensures forall i :: m <= i < |spells| ==> DestroyFault(w.scaffolded, spells[i], fates[i]) == None
    ensures var o, names := Destroy(w, spells, fates, n), Names(spells);
            && o.raised == (if m == n then None else DestroyFault(w.scaffolded, spells[m - 1], fates[m - 1]))
            && (m > n ==> o.raised != None)
            && o.state == World(w.scaffolded, w.started - (Between(names, m, |names|) * w.scaffolded))
    decreases |spells| - n
  {
    var names := Names(spells);
    if n == |spells| {
      m := n;
      assert Between(names, n, |names|) == {};
    } else {
      m := DestroyExact(w, spells, fates, n + 1);
      if m == n + 1 && DestroyFault(w.scaffolded, spells[n], fates[n]) == None {
        assert Between(names, n, |names|) == Between(names, n + 1, |names|) + {names[n]};
        m := n;
      }
    }
  }

  // ---- Any sequence of invocations -------------------------------------------------------------------

  datatype Op = DeployAll(preview: bool, fates: seq<Fate>) | DestroyAll(fates: seq<Fate>)

  predicate Fits(spells: seq<SpellRef>, ops: seq<Op>) {
    forall op :: op in ops ==> |op.fates| == |spells|
  }

  function Apply(w: World, registry: set<string>, spells: seq<SpellRef>, op: Op): World
    requires |op.fates| == |spells|
  {
    match op
    case DeployAll(preview, fates) => Deploy(w, registry, spells, fates, preview, |spells|).state
    case DestroyAll(fates) => Destroy(w, spells, fates, 0).state
  }

  function ApplyAll(registry: set<string>, spells: seq<SpellRef>, ops: seq<Op>): World
    requires Fits(spells, ops)
    decreases |ops|
  {
    if ops == [] then NOWHERE
    else Apply(ApplyAll(registry, spells, ops[..|ops| - 1]), registry, spells, ops[|ops| - 1])
  }

  ghost predicate Safe(registry: set<string>, spells: seq<SpellRef>, w: World) {
    && w.started <= w.scaffolded && DownClosed(Names(spells), w.started)
    && w.started <= Between(Names(spells), 0, Reach(registry, spells))
  }

  lemma DeployKeepsSafe(w: World, registry: set<string>, spells: seq<SpellRef>, fates: seq<Fate>, preview: bool)
    requires |fates| == |spells| && Safe(registry, spells, w)
    ensures Safe(registry, spells, Deploy(w, registry, spells, fates, preview, |spells|).state)
  {
    hide Deploy;
    var m := DeployAddsPrefix(w, registry, spells, fates, preview, |spells|);
    var names := Names(spells);
    var after := Deploy(w, registry, spells, fates, preview, |spells|).state.started;
    forall i: nat, j: nat | i < j && FirstAt(names, j) && names[j] in after
      ensures names[i] in after
    {
      if names[j] in Between(names, 0, m) {
        var q :| 0 <= q < m && names[q] == names[j];
        assert j <= q;
        assert names[i] in Between(names, 0, m);
      }
    }
  }

  /** In order, a suffix that mentions a name mentions every name first mentioned after it. */
  lemma SuffixHasLater(names: seq<string>, n: nat, i: nat, j: nat, m: nat)
    requires OrderKept(names, n) && i < j < n && FirstAt(names, j) && m <= |names|
        && names[i] in Between(names, m, |names|)
    ensures names[j] in Between(names, m, |names|)
  {
    var q :| m <= q < |names| && names[q] == names[i];
    var first := FirstMention(names, i);
    var last := LastMention(names, q);
    var lastJ := LastMention(names, j);
    assert !Crossed(names, first, j, last, lastJ);
    assert names[lastJ] in Between(names, m, |names|);
  }

  lemma DestroyKeepsSafe(w: World, registry: set<string>, spells: seq<SpellRef>, fates: seq<Fate>)
    requires |fates| == |spells| && Safe(registry, spells, w) && OrderKept(Names(spells), Reach(registry, spells))
    ensures Safe(registry, spells, Destroy(w, spells, fates, 0).state)
  {
    hide Destroy;
    var m := DestroyRemovesSuffix(w, spells, fates, 0);
    var names := Names(spells);
    var after := Destroy(w, spells, fates, 0).state.started;
    forall i: nat, j: nat | i < j && FirstAt(names, j) && names[j] in after
      ensures names[i] in after
    {
      var reached :| 0 <= reached < Reach(registry, spells) && names[reached] == names[j];
      assert j <= reached;
      if names[i] in Between(names, m, |names|) {
        SuffixHasLater(names, Reach(registry, spells), i, j, m);
      }
    }
  }

  lemma {:induction false} RunsStaySafe(registry: set<string>, spells: seq<SpellRef>, ops: seq<Op>)
    requires Fits(spells, ops) && OrderKept(Names(spells), Reach(registry, spells))
    ensures Safe(registry, spells, ApplyAll(registry, spells, ops))
    decreases |ops|
  {
    hide OrderKept, Deploy, Destroy;
    if ops != [] {
      var op, before := ops[|ops| - 1], ApplyAll(registry, spells, ops[..|ops| - 1]);
      RunsStaySafe(registry, spells, ops[..|ops| - 1]);
      match op
      case DeployAll(preview, fates) => DeployKeepsSafe(before, registry, spells, fates, preview);
      case DestroyAll(fates) => DestroyKeepsSafe(before, registry, spells, fates);
    }
  }

  /**
   With distinct spell names, after any invocations and failures the started stacks are a scaffolded prefix of the
   project.
   */
  lemma PrefixSafety(registry: set<string>, spells: seq<SpellRef>, ops: seq<Op>)
    requires Fits(spells, ops) && forall i, j :: 0 <= i < j < |spells| ==> spells[i].name != spells[j].name
    ensures var w := ApplyAll(registry, spells, ops);
            IsPrefix(Names(spells), w.started) && w.started <= w.scaffolded
  {
    DistinctNamesKeepOrder(Names(spells), Reach(registry, spells));
    RunsStaySafe(registry, spells, ops);
    DownClosedIsPrefix(Names(spells), ApplyAll(registry, spells, ops).started);
  }

  /** An uninterrupted destroy leaves nothing started; an uninterrupted deploy leaves everything started. */
  lemma UninterruptedRuns(w: World, registry: set<string>, spells: seq<SpellRef>, fates: seq<Fate>)
    requires |fates| == |spells| && Safe(registry, spells, w)
    ensures Destroy(w, spells, fates, 0).Ok() ==> Destroy(w, spells, fates, 0).state.started == {}
    ensures var o := Deploy(w, registry, spells, fates, false, |spells|);
            o.Ok() ==> o.state.started == Between(Names(spells), 0, |spells|)
  {
    hide Deploy, Destroy;
    var m := DestroyRemovesSuffix(w, spells, fates, 0);
    var k := DeployAddsPrefix(w, registry, spells, fates, false, |spells|);
  }

  // ---- Repeated names --------------------------------------------------------------------------------

  function AllFine(n: nat): seq<Fate> {
    seq(n, _ => FINE)
  }

  function FailAt(n: nat, i: nat): seq<Fate> {
    seq(n, k => if k == i then FINE.(operationSucceeds := false) else FINE)
  }

  lemma {:induction false} FineDeployStarts(registry: set<string>, spells: seq<SpellRef>, n: nat)
    requires n <= Reach(registry, spells)
    ensures var o := Deploy(NOWHERE, registry, spells, AllFine(|spells|), false, n);
            o.Ok() && o.state.started == o.state.scaffolded == Between(Names(spells), 0, n)
  {
    if n > 0 {
      FineDeployStarts(registry, spells, n - 1);
      assert Between(Names(spells), 0, n) == Between(Names(spells), 0, n - 1) + {spells[n - 1].name};
    }
  }

  /** A deploy in which nothing fails starts every spell before the first unregistered one. */
  lemma {:induction false} FineDeploy(registry: set<string>, spells: seq<SpellRef>)
    ensures var w := Deploy(NOWHERE, registry, spells, AllFine(|spells|), false, |spells|).state;
            w.started == w.scaffolded == Between(Names(spells), 0, Reach(registry, spells))
  {
    var n := Reach(registry, spells);
    FineDeployStarts(registry, spells, n);
    if n < |spells| {
      DeployStops(NOWHERE, registry, spells, AllFine(|spells|), false, n + 1, |spells|);
    }
  }

  lemma {:induction false} DestroyUntil(w: World, spells: seq<SpellRef>, i: nat, n: nat)
    requires i < n <= |spells| && w.started <= w.scaffolded
    ensures var o := Destroy(w, spells, FailAt(|spells|, i), n);
            o.Ok() && o.state == w.(started := w.started - Between(Names(spells), n, |spells|))
    decreases |spells| - n
  {
    var names := Names(spells);
    if n == |spells| {
      assert Between(names, n, |spells|) == {};
    } else {
      DestroyUntil(w, spells, i, n + 1);
      assert Between(names, n, |spells|) == Between(names, n + 1, |spells|) + {names[n]};
    }
  }

  lemma {:induction false} FailingDestroyStops(w: World, spells: seq<SpellRef>, i: nat)
    requires i < |spells| && w.started <= w.scaffolded && spells[i].name in w.scaffolded
    ensures Destroy(w, spells, FailAt(|spells|, i), 0).state
        == w.(started := w.started - Between(Names(spells), i + 1, |spells|))
  {
    DestroyUntil(w, spells, i, i + 1);
    DestroyStops(w, spells, FailAt(|spells|, i), i, 0);
  }

  lemma GapIsNoPrefix(names: seq<string>, n: nat, i: nat, j: nat, i': nat, j': nat)
    requires Crossed(names, i, j, i', j') && j < n <= |names|
    ensures !IsPrefix(names, Between(names, 0, n) - Between(names, j' + 1, |names|))
  {
    var s := Between(names, 0, n) - Between(names, j' + 1, |names|);
    assert j' < i';
    assert names[j] in s && names[i] !in s;
    DownClosedIsPrefix(names, s);
  }

  /** Deploy everything, then let the destroy fail at index k. */
  function FailingAt(n: nat, k: nat): seq<Op> {
    [DeployAll(false, AllFine(n)), DestroyAll(FailAt(n, k))]
  }

  lemma {:induction false} FailingAtLeaves(registry: set<string>, spells: seq<SpellRef>, k: nat)
    requires k < |spells| && spells[k].name in Between(Names(spells), 0, Reach(registry, spells))
    ensures Fits(spells, FailingAt(|spells|, k))
    ensures ApplyAll(registry, spells, FailingAt(|spells|, k)).started
         == Between(Names(spells), 0, Reach(registry, spells)) - Between(Names(spells), k + 1, |spells|)
  {
    hide Deploy, Destroy, Reach;
    var ops := FailingAt(|spells|, k);
    var first := ops[..1];
    assert first == [ops[0]] && first[..0] == [];
    FineDeploy(registry, spells);
    var deployed := ApplyAll(registry, spells, first);
    assert ApplyAll(registry, spells, first[..0]) == NOWHERE;
    assert deployed == Deploy(NOWHERE, registry, spells, AllFine(|spells|), false, |spells|).state;
    FailingDestroyStops(deployed, spells, k);
  }

  /** Out of order, one deploy and one failing destroy leave a gap. */
  lemma {:induction false} OutOfOrderBreaks(registry: set<string>, spells: seq<SpellRef>) returns (ops: seq<Op>)
    requires !OrderKept(Names(spells), Reach(registry, spells))
    ensures Fits(spells, ops) && !IsPrefix(Names(spells), ApplyAll(registry, spells, ops).started)
  {
    hide ApplyAll, Deploy, Destroy, IsPrefix, Reach;
    var names, n := Names(spells), Reach(registry, spells);
    var i: nat, j: nat, i': nat, j': nat :| j < n && Crossed(names, i, j, i', j');
    assert j' < |names| && names[j'] == names[j];
    hide Crossed;
    ops := FailingAt(|spells|, j');
    FailingAtLeaves(registry, spells, j');
    GapIsNoPrefix(names, n, i, j, i', j');
  }

  /**
   Exactly which projects are prefix-safe: those whose names, as far as they are first mentioned before the first spell
   of an unregistered type, are last mentioned in the order in which they are first mentioned.
   */
  lemma {:induction false} PrefixSafetyExact(registry: set<string>, spells: seq<SpellRef>)
    ensures (forall ops :: Fits(spells, ops) ==> IsPrefix(Names(spells), ApplyAll(registry, spells, ops).started))
            <==> OrderKept(Names(spells), Reach(registry, spells))
  {
    hide OrderKept, IsPrefix, ApplyAll;
    if OrderKept(Names(spells), Reach(registry, spells)) {
      forall ops | Fits(spells, ops)
        ensures IsPrefix(Names(spells), ApplyAll(registry, spells, ops).started)
      {
        RunsStaySafe(registry, spells, ops);
        DownClosedIsPrefix(Names(spells), ApplyAll(registry, spells, ops).started);
      }
    } else {
      var ops := OutOfOrderBreaks(registry, spells);
    }
  }
}
