/**
  Method lookup for a call `a.b::<Xs>(...)` in the type checker: the search
  over the receiver's own methods (type parameter bounds, a boxed trait, a
  class), then over the impls in scope by subtyping and then by
  assignability, then again after one auto-dereference, stopping at the
  first stage that produced a candidate.

  The type system is reached only through the oracle `Env`: the shape of a
  type, `deref`, the bounds of a type parameter, the method tables of
  traits and classes, the impl scopes visible at the call, the subtyping
  and assignability tests, and the construction of function types and fresh
  type variables.
*/
module MethodLookup {
  import opened Options

  type Ty = nat
  type DefId = nat
  type Ident = nat
  type Region = nat

  /** Substitutions: the region and `self` parameters and the type parameters. */
  datatype Substs = Substs(selfR: Option<Region>, selfTy: Option<Ty>, tps: seq<Ty>)

  /** The shapes of a receiver type that the first stage distinguishes. */
  datatype TyKind =
    | TyParam(n: nat, did: DefId)
    | TyTrait(did: DefId, substs: Substs)
    | TyClass(did: DefId, substs: Substs)
    | TyOther

  /** A bound on a type parameter; a trait bound is given with its trait and substitutions. */
  datatype ParamBound = BoundCopy | BoundSend | BoundConst | BoundTrait(traitId: DefId, substs: Substs)

  datatype Visibility = Public | Private

  /** A method as listed in a trait's (or class's) method table. */
  datatype MethodSig = MethodSig(ident: Ident, fty: Ty, nTps: nat, vis: Visibility)

  /** A method of an impl, and the impl itself. */
  datatype ImplMethod = ImplMethod(ident: Ident, did: DefId, nTps: nat)
  datatype Impl = Impl(did: DefId, methods: seq<ImplMethod>)

  /** Where the chosen method comes from. */
  datatype Origin =
    | MethodStatic(did: DefId)
    | MethodParam(traitId: DefId, methodNum: nat, paramNum: nat, boundNum: nat)
    | MethodTrait(traitDid: DefId, index: nat)

  /** The entry recorded for the call in the method map. */
  datatype Entry = Entry(derefs: nat, origin: Origin)

  datatype Candidate = Candidate(selfTy: Ty, selfSubsts: Substs, rcvrTy: Ty, nTpsM: nat, fty: Ty, entry: Entry)

  /** The diagnostics the search emits (their wording and spans are not modelled). */
  datatype Diag =
    | MultipleApplicable
    | CandidateNote(number: nat, origin: Origin)
    | SelfTypeThroughTrait
    | GenericThroughTrait
    | NoTypeParams
    | WrongTypeParamCount

  /** The type-system queries the search makes. */
  datatype Env = Env(
    kind: Ty -> TyKind,
    deref: Ty -> Option<Ty>,
    rank: Ty -> nat,
    bounds: DefId -> seq<ParamBound>,
    traitMethods: DefId -> seq<MethodSig>,
    classMethodByName: (DefId, Ident) -> DefId,
    scopes: seq<seq<Impl>>,
    implSelfTy: DefId -> (Substs, Ty),
    canMkSubty: (Ty, Ty) -> bool,
    canMkAssignty: (Ty, Ty) -> bool,
    mkAssignty: (Ty, Ty) -> bool,
    hasSelf: Ty -> bool,
    itemFnTy: DefId -> Ty,
    boxFn: Ty -> Ty,
    nextTyVars: nat -> seq<Ty>)
  {
    /**
      Dereferencing strictly lowers `rank`, so auto-dereference ends; and
      `next_ty_vars(n)` makes exactly `n` variables.
    */
    ghost predicate Wf()
    {
      && (forall t :: deref(t).Some? ==> rank(deref(t).value) < rank(t))
      && (forall n :: |nextTyVars(n)| == n)
    }
  }

  /** The mutable part of a lookup. */
  datatype LState = LState(selfTy: Ty, derefs: nat, candidates: seq<Candidate>, candidateImpls: set<DefId>, diags: seq<Diag>)

  /** `add_candidates_from_m`: the receiver is the current self type, the type is boxed, `derefs` is recorded. */
  function FromM(env: Env, selfTy: Ty, derefs: nat, substs: Substs, m: MethodSig, origin: Origin): Candidate
  {
    Candidate(selfTy, substs, selfTy, m.nTps, env.boxFn(m.fty), Entry(derefs, origin))
  }

  /** `vec::position` over a method table by name. */
  function FindIdent(ms: seq<MethodSig>, name: Ident): (r: Option<nat>)
    ensures r.Some? ==> r.value < |ms| && ms[r.value].ident == name && forall j :: 0 <= j < r.value ==> ms[j].ident != name
    ensures r.None? ==> forall j :: 0 <= j < |ms| ==> ms[j].ident != name
  {
    if ms == [] then None
    else if ms[0].ident == name then Some(0)
    else match FindIdent(ms[1..], name)
      case None => None
      case Some(k) => Some(k + 1)
  }

  // ---------------------------------------------------------------- bounds

  /** A trait bound whose trait does not have the method. */
  predicate Lacks(env: Env, name: Ident, b: ParamBound)
  {
    b.BoundTrait? && FindIdent(env.traitMethods(b.traitId), name).None?
  }

  /** The trait bounds among `bs` whose trait lacks the method. */
  function LackingCount(env: Env, name: Ident, bs: seq<ParamBound>): nat
  {
    if bs == [] then 0
    else LackingCount(env, name, bs[..|bs| - 1]) + (if Lacks(env, name, bs[|bs| - 1]) then 1 else 0)
  }

  /** The trait bounds among `bs`. */
  function TraitBoundCount(bs: seq<ParamBound>): nat
  {
    if bs == [] then 0
    else TraitBoundCount(bs[..|bs| - 1]) + (if bs[|bs| - 1].BoundTrait? then 1 else 0)
  }

  /**
    The candidates the bounds `bs` of parameter `n` give: one per trait bound
    whose trait has the method, numbered by the trait bounds before it that
    lack the method; `self` is replaced by the parameter type itself.
  */
  function ParamCandidates(env: Env, name: Ident, selfTy: Ty, derefs: nat, n: nat, bs: seq<ParamBound>): seq<Candidate>
  {
    if bs == [] then []
    else
      var k := |bs| - 1;
      var front := ParamCandidates(env, name, selfTy, derefs, n, bs[..k]);
      match bs[k]
      case BoundTrait(iid, bsubsts) =>
        (match FindIdent(env.traitMethods(iid), name)
         case None => front
         case Some(pos) =>
           front + [FromM(env, selfTy, derefs, bsubsts.(selfTy := Some(selfTy)), env.traitMethods(iid)[pos],
                          MethodParam(iid, pos, n, LackingCount(env, name, bs[..k])))])
      case _ => front
  }

  /** Every trait bound either gives a candidate or advances the bound counter; the other bounds do neither. */
  lemma {:induction false} ParamBoundsAccounted(env: Env, name: Ident, selfTy: Ty, derefs: nat, n: nat, bs: seq<ParamBound>)
    ensures |ParamCandidates(env, name, selfTy, derefs, n, bs)| + LackingCount(env, name, bs) == TraitBoundCount(bs)
  {
    if bs != [] {
      ParamBoundsAccounted(env, name, selfTy, derefs, n, bs[..|bs| - 1]);
    }
  }

  /** All candidates from bounds are `method_param` candidates of parameter `n` at the current receiver. */
  lemma {:induction false} ParamCandidatesShape(env: Env, name: Ident, selfTy: Ty, derefs: nat, n: nat, bs: seq<ParamBound>)
    ensures forall c :: c in ParamCandidates(env, name, selfTy, derefs, n, bs) ==>
      && c.entry.derefs == derefs && c.selfTy == selfTy && c.rcvrTy == selfTy
      && c.selfSubsts.selfTy == Some(selfTy)
      && c.entry.origin.MethodParam? && c.entry.origin.paramNum == n
  {
    if bs != [] {
      ParamCandidatesShape(env, name, selfTy, derefs, n, bs[..|bs| - 1]);
    }
  }

  /** Whether a bound is a trait bound whose trait has the method. */
  predicate Provides(env: Env, name: Ident, b: ParamBound)
  {
    b.BoundTrait? && FindIdent(env.traitMethods(b.traitId), name).Some?
  }

  /** The first bound whose trait has the method. */
  function FirstProvider(env: Env, name: Ident, bs: seq<ParamBound>): (r: Option<nat>)
    ensures r.Some? ==> r.value < |bs| && Provides(env, name, bs[r.value])
    ensures r.Some? ==> forall j :: 0 <= j < r.value ==> !Provides(env, name, bs[j])
    ensures r.None? ==> forall j :: 0 <= j < |bs| ==> !Provides(env, name, bs[j])
  {
    if bs == [] then None
    else if Provides(env, name, bs[0]) then Some(0)
    else match FirstProvider(env, name, bs[1..])
      case None => None
      case Some(k) => Some(k + 1)
  }

  /**
    The bounds give a candidate exactly when some bound's trait has the
    method, and the candidate used (the first) is the first such bound's:
    its bound number is that bound's index among the trait bounds, its
    method number the method's position in the trait.
  */
  lemma {:induction false} ParamFirstBoundNum(env: Env, name: Ident, selfTy: Ty, derefs: nat, n: nat, bs: seq<ParamBound>)
    ensures var cs := ParamCandidates(env, name, selfTy, derefs, n, bs);
      (cs != [] <==> FirstProvider(env, name, bs).Some?)
    ensures var cs := ParamCandidates(env, name, selfTy, derefs, n, bs);
      cs != [] ==>
        var k := FirstProvider(env, name, bs).value;
        cs[0].entry.origin ==
          MethodParam(bs[k].traitId, FindIdent(env.traitMethods(bs[k].traitId), name).value, n, TraitBoundCount(bs[..k]))
  {
    if bs == [] {
      return;
    }
    var m := |bs| - 1;
    var front := ParamCandidates(env, name, selfTy, derefs, n, bs[..m]);
    var cs := ParamCandidates(env, name, selfTy, derefs, n, bs);
    ParamFirstBoundNum(env, name, selfTy, derefs, n, bs[..m]);
    if front != [] {
      var k := FirstProvider(env, name, bs[..m]).value;
      assert bs[..m][k] == bs[k];
      assert bs[..m][..k] == bs[..k];
      forall j | 0 <= j < k ensures !Provides(env, name, bs[j]) {
        assert bs[..m][j] == bs[j];
      }
      FirstProviderAt(env, name, bs, k);
      assert cs[0] == front[0];
    } else {
      NoneProvideBefore(env, name, selfTy, derefs, n, bs[..m]);
      forall j | 0 <= j < m ensures !Provides(env, name, bs[j]) {
        assert bs[..m][j] == bs[j];
      }
      if Provides(env, name, bs[m]) {
        FirstProviderAt(env, name, bs, m);
        LackingAllTraits(env, name, bs[..m]);
      } else {
        assert FirstProvider(env, name, bs) == None;
      }
    }
  }

  /** A providing bound with no provider before it is the first provider. */
  lemma FirstProviderAt(env: Env, name: Ident, bs: seq<ParamBound>, k: nat)
    requires k < |bs| && Provides(env, name, bs[k])
    requires forall j :: 0 <= j < k ==> !Provides(env, name, bs[j])
    ensures FirstProvider(env, name, bs) == Some(k)
  {
  }

  /** No candidate from a prefix means no bound in it has the method. */
  lemma {:induction false} NoneProvideBefore(env: Env, name: Ident, selfTy: Ty, derefs: nat, n: nat, bs: seq<ParamBound>)
    requires ParamCandidates(env, name, selfTy, derefs, n, bs) == []
    ensures forall j :: 0 <= j < |bs| ==> !Provides(env, name, bs[j])
  {
    if bs != [] {
      var m := |bs| - 1;
      NoneProvideBefore(env, name, selfTy, derefs, n, bs[..m]);
      forall j | 0 <= j < m ensures !Provides(env, name, bs[j]) {
        assert bs[..m][j] == bs[j];
      }
    }
  }

  /** When no bound has the method, every trait bound advances the counter. */
  lemma {:induction false} LackingAllTraits(env: Env, name: Ident, bs: seq<ParamBound>)
    requires forall j :: 0 <= j < |bs| ==> !Provides(env, name, bs[j])
    ensures LackingCount(env, name, bs) == TraitBoundCount(bs)
  {
    if bs != [] {
      var m := |bs| - 1;
      forall j | 0 <= j < m ensures !Provides(env, name, bs[..m][j]) {
        assert bs[..m][j] == bs[j];
      }
      LackingAllTraits(env, name, bs[..m]);
    }
  }

  // ---------------------------------------------------------------- boxed trait

  /** Candidates and diagnostics a pass adds. */
  datatype Added = Added(cands: seq<Candidate>, diags: seq<Diag>)

  /** The errors for calling trait method `m` through a boxed trait; they do not stop the candidate being added. */
  function TraitErrors(env: Env, m: MethodSig): seq<Diag>
  {
    (if env.hasSelf(m.fty) then [SelfTypeThroughTrait] else []) + (if m.nTps > 0 then [GenericThroughTrait] else [])
  }

  /** The methods of trait `did` named `name`, each with its index as `method_trait(did, i)`. */
  function TraitAdded(env: Env, name: Ident, selfTy: Ty, derefs: nat, did: DefId, substs: Substs, ms: seq<MethodSig>): (r: Added)
    ensures forall c :: c in r.cands ==> c.entry.derefs == derefs && c.selfTy == selfTy && c.rcvrTy == selfTy
  {
    if ms == [] then Added([], [])
    else
      var k := |ms| - 1;
      var front := TraitAdded(env, name, selfTy, derefs, did, substs, ms[..k]);
      if ms[k].ident != name then front
      else Added(front.cands + [FromM(env, selfTy, derefs, substs.(selfTy := Some(selfTy)), ms[k], MethodTrait(did, k))],
                 front.diags + TraitErrors(env, ms[k]))
  }

  /** The indices of the methods named `name`, in increasing order. */
  function MatchIndices(ms: seq<MethodSig>, name: Ident): (r: seq<nat>)
    ensures forall j :: 0 <= j < |r| ==> r[j] < |ms| && ms[r[j]].ident == name
    ensures forall i :: 0 <= i < |ms| && ms[i].ident == name ==> i in r
    ensures forall a, b :: 0 <= a < b < |r| ==> r[a] < r[b]
  {
    if ms == [] then []
    else
      var k := |ms| - 1;
      var front := MatchIndices(ms[..k], name);
      assert forall j :: 0 <= j < |front| ==> ms[..k][front[j]] == ms[front[j]];
      if ms[k].ident == name then front + [k] else front
  }

  /** Candidates that follow the trait methods at `idx` one for one, each recorded under its index. */
  predicate FollowsMatches(cands: seq<Candidate>, idx: seq<nat>, did: DefId, ms: seq<MethodSig>)
  {
    && |cands| == |idx|
    && forall j :: 0 <= j < |idx| ==>
         idx[j] < |ms| && cands[j].entry.origin == MethodTrait(did, idx[j]) && cands[j].nTpsM == ms[idx[j]].nTps
  }

  /**
    A trait method is a candidate exactly when it has the looked-up name,
    errors or not: the candidates follow the matching methods in order, each
    recorded under its own index.
  */
  lemma {:induction false} TraitCandidatesAreMatches(env: Env, name: Ident, selfTy: Ty, derefs: nat, did: DefId, substs: Substs, ms: seq<MethodSig>)
    ensures FollowsMatches(TraitAdded(env, name, selfTy, derefs, did, substs, ms).cands, MatchIndices(ms, name), did, ms)
  {
    if ms != [] {
      var k := |ms| - 1;
      TraitCandidatesAreMatches(env, name, selfTy, derefs, did, substs, ms[..k]);
      var front := TraitAdded(env, name, selfTy, derefs, did, substs, ms[..k]).cands;
      var fidx := MatchIndices(ms[..k], name);
      var cands := TraitAdded(env, name, selfTy, derefs, did, substs, ms).cands;
      var idx := MatchIndices(ms, name);
      forall j | 0 <= j < |fidx| ensures ms[..k][fidx[j]] == ms[fidx[j]] { }
      if ms[k].ident == name {
        assert cands == front + [FromM(env, selfTy, derefs, substs.(selfTy := Some(selfTy)), ms[k], MethodTrait(did, k))];
        assert idx == fidx + [k];
      } else {
        assert cands == front && idx == fidx;
      }
    }
  }

  /** A self-typed or generic trait method with the name is reported, and only such methods are. */
  lemma {:induction false} TraitErrorsReported(env: Env, name: Ident, selfTy: Ty, derefs: nat, did: DefId, substs: Substs, ms: seq<MethodSig>)
    ensures var a := TraitAdded(env, name, selfTy, derefs, did, substs, ms);
      (SelfTypeThroughTrait in a.diags <==> exists i :: 0 <= i < |ms| && ms[i].ident == name && env.hasSelf(ms[i].fty))
    ensures var a := TraitAdded(env, name, selfTy, derefs, did, substs, ms);
      (GenericThroughTrait in a.diags <==> exists i :: 0 <= i < |ms| && ms[i].ident == name && ms[i].nTps > 0)
  {
    if ms != [] {
      var k := |ms| - 1;
      TraitErrorsReported(env, name, selfTy, derefs, did, substs, ms[..k]);
      forall i | 0 <= i < k ensures ms[..k][i] == ms[i] { }
    }
  }

  // ---------------------------------------------------------------- class

  /** The first method named `name` that is private while private methods are excluded. */
  function FirstPrivate(ms: seq<MethodSig>, name: Ident, includePrivate: bool): (r: Option<nat>)
    ensures r.Some? ==> r.value < |ms| && ms[r.value].ident == name && ms[r.value].vis == Private && !includePrivate
    ensures r.Some? ==> forall j :: 0 <= j < r.value ==> !(ms[j].ident == name && ms[j].vis == Private)
    ensures r.None? ==> includePrivate || forall j :: 0 <= j < |ms| ==> !(ms[j].ident == name && ms[j].vis == Private)
  {
    if includePrivate || ms == [] then None
    else if ms[0].ident == name && ms[0].vis == Private then Some(0)
    else match FirstPrivate(ms[1..], name, includePrivate)
      case None => None
      case Some(k) => Some(k + 1)
  }

  /** The class methods named `name`, all resolved to the declaration `lookup_class_method_by_name` finds. */
  function ClassCandidates(env: Env, name: Ident, selfTy: Ty, derefs: nat, did: DefId, substs: Substs, ms: seq<MethodSig>): seq<Candidate>
  {
    if ms == [] then []
    else
      var k := |ms| - 1;
      var front := ClassCandidates(env, name, selfTy, derefs, did, substs, ms[..k]);
      if ms[k].ident != name then front
      else front + [FromM(env, selfTy, derefs, substs, ms[k], MethodStatic(env.classMethodByName(did, name)))]
  }

  /** Class candidates all resolve to the declaration found by name, at the current receiver. */
  lemma {:induction false} ClassCandidatesShape(env: Env, name: Ident, selfTy: Ty, derefs: nat, did: DefId, substs: Substs, ms: seq<MethodSig>)
    ensures forall c :: c in ClassCandidates(env, name, selfTy, derefs, did, substs, ms) ==>
      && c.entry == Entry(derefs, MethodStatic(env.classMethodByName(did, name)))
      && c.selfSubsts == substs && c.selfTy == selfTy && c.rcvrTy == selfTy
  {
    if ms != [] {
      ClassCandidatesShape(env, name, selfTy, derefs, did, substs, ms[..|ms| - 1]);
    }
  }

  /** One class candidate per method with the name. */
  lemma {:induction false} ClassCandidateCount(env: Env, name: Ident, selfTy: Ty, derefs: nat, did: DefId, substs: Substs, ms: seq<MethodSig>)
    ensures |ClassCandidates(env, name, selfTy, derefs, did, substs, ms)| == |MatchIndices(ms, name)|
  {
    if ms != [] {
      ClassCandidateCount(env, name, selfTy, derefs, did, substs, ms[..|ms| - 1]);
    }
  }

  // ---------------------------------------------------------------- impls in scope

  /** `find` on an impl's methods: the first one with the name. */
  function FindImplMethod(ms: seq<ImplMethod>, name: Ident): (r: Option<ImplMethod>)
    ensures r.Some? ==> r.value in ms && r.value.ident == name
    ensures r.Some? ==> exists i :: 0 <= i < |ms| && ms[i] == r.value && forall j :: 0 <= j < i ==> ms[j].ident != name
    ensures r.None? ==> forall m :: m in ms ==> m.ident != name
  {
    if ms == [] then None
    else if ms[0].ident == name then Some(ms[0])
    else FindImplMethod(ms[1..], name)
  }

  /** Whether the receiver type matches impl `im` by subtyping, or by assignability. */
  predicate ImplMatches(env: Env, selfTy: Ty, useAssignability: bool, im: Impl)
  {
    var implTy := env.implSelfTy(im.did).1;
    if useAssignability then env.canMkAssignty(selfTy, implTy) else env.canMkSubty(selfTy, implTy)
  }

  /** Whether impl `im` has the method and matches, so that it gives a candidate unless it is already listed. */
  predicate Eligible(env: Env, name: Ident, selfTy: Ty, useAssignability: bool, im: Impl)
  {
    FindImplMethod(im.methods, name).Some? && ImplMatches(env, selfTy, useAssignability, im)
  }

  /** Candidates added by one scope, and the impls they came from, in order. */
  datatype ScopePass = ScopePass(cands: seq<Candidate>, added: seq<DefId>)

  /**
    One scope's impls in order: each eligible impl that is neither in
    `seen` nor already added gives the candidate for its method.
  */
  function ImplsPass(env: Env, name: Ident, selfTy: Ty, derefs: nat, useAssignability: bool, impls: seq<Impl>, seen: set<DefId>): (r: ScopePass)
    ensures |r.cands| == |r.added|
    ensures forall c :: c in r.cands ==> c.entry.derefs == derefs && c.selfTy == selfTy && c.entry.origin.MethodStatic?
  {
    if impls == [] then ScopePass([], [])
    else
      var k := |impls| - 1;
      var front := ImplsPass(env, name, selfTy, derefs, useAssignability, impls[..k], seen);
      var im := impls[k];
      if Eligible(env, name, selfTy, useAssignability, im) && im.did !in seen && im.did !in front.added then
        var m := FindImplMethod(im.methods, name).value;
        var (implSubsts, implTy) := env.implSelfTy(im.did);
        ScopePass(front.cands + [Candidate(selfTy, implSubsts, implTy, m.nTps, env.itemFnTy(m.did), Entry(derefs, MethodStatic(m.did)))],
                  front.added + [im.did])
      else front
  }

  /** No impl listed twice. */
  predicate NoRepeats(ds: seq<DefId>)
  {
    forall a, b :: 0 <= a < b < |ds| ==> ds[a] != ds[b]
  }

  /**
    At most one candidate per impl: the impls a scope pass adds are
    distinct and were not listed before.
  */
  lemma {:induction false} ImplsPassDedup(env: Env, name: Ident, selfTy: Ty, derefs: nat, useAssignability: bool, impls: seq<Impl>, seen: set<DefId>)
    ensures NoRepeats(ImplsPass(env, name, selfTy, derefs, useAssignability, impls, seen).added)
    ensures forall d :: d in ImplsPass(env, name, selfTy, derefs, useAssignability, impls, seen).added ==> d !in seen
  {
    if impls != [] {
      var k := |impls| - 1;
      ImplsPassDedup(env, name, selfTy, derefs, useAssignability, impls[..k], seen);
      var front := ImplsPass(env, name, selfTy, derefs, useAssignability, impls[..k], seen);
      var p := ImplsPass(env, name, selfTy, derefs, useAssignability, impls, seen);
      if p != front {
        assert p.added == front.added + [impls[k].did];
        assert impls[k].did !in front.added && impls[k].did !in seen;
        forall a, b | 0 <= a < b < |p.added| ensures p.added[a] != p.added[b] {
          assert p.added[a] == front.added[a];
          if b == |front.added| {
            assert p.added[b] == impls[k].did;
            assert front.added[a] in front.added;
          } else {
            assert p.added[b] == front.added[b];
            assert front.added[a] != front.added[b];
          }
        }
      }
    }
  }

  /** Impl `d` is one of `impls` that has the method and matches. */
  predicate FromEligible(env: Env, name: Ident, selfTy: Ty, useAssignability: bool, impls: seq<Impl>, d: DefId)
  {
    exists im :: im in impls && im.did == d && Eligible(env, name, selfTy, useAssignability, im)
  }

  /** Every impl a scope pass adds is one of the scope's impls that has the method and matches. */
  lemma {:induction false} ImplsPassSound(env: Env, name: Ident, selfTy: Ty, derefs: nat, useAssignability: bool, impls: seq<Impl>, seen: set<DefId>)
    ensures forall d :: d in ImplsPass(env, name, selfTy, derefs, useAssignability, impls, seen).added ==>
      FromEligible(env, name, selfTy, useAssignability, impls, d)
  {
    if impls != [] {
      var k := |impls| - 1;
      ImplsPassSound(env, name, selfTy, derefs, useAssignability, impls[..k], seen);
      var front := ImplsPass(env, name, selfTy, derefs, useAssignability, impls[..k], seen);
      var p := ImplsPass(env, name, selfTy, derefs, useAssignability, impls, seen);
      forall d | d in p.added
        ensures FromEligible(env, name, selfTy, useAssignability, impls, d)
      {
        if d in front.added {
          assert FromEligible(env, name, selfTy, useAssignability, impls[..k], d);
          var im :| im in impls[..k] && im.did == d && Eligible(env, name, selfTy, useAssignability, im);
          assert im in impls;
        } else {
          var im := impls[k];
          assert im in impls && im.did == d && Eligible(env, name, selfTy, useAssignability, im);
        }
      }
    }
  }

  /** A scope pass misses no impl that has the method, matches and was not listed before. */
  lemma {:induction false} ImplsPassComplete(env: Env, name: Ident, selfTy: Ty, derefs: nat, useAssignability: bool, impls: seq<Impl>, seen: set<DefId>)
    ensures forall im :: im in impls && Eligible(env, name, selfTy, useAssignability, im) && im.did !in seen ==>
      im.did in ImplsPass(env, name, selfTy, derefs, useAssignability, impls, seen).added
  {
    if impls != [] {
      var k := |impls| - 1;
      ImplsPassComplete(env, name, selfTy, derefs, useAssignability, impls[..k], seen);
      var front := ImplsPass(env, name, selfTy, derefs, useAssignability, impls[..k], seen);
      var p := ImplsPass(env, name, selfTy, derefs, useAssignability, impls, seen);
      assert forall d :: d in front.added ==> d in p.added;
      forall im | im in impls && Eligible(env, name, selfTy, useAssignability, im) && im.did !in seen
        ensures im.did in p.added
      {
        if im != impls[k] {
          assert im in impls[..k];
        }
      }
    }
  }

  /** The scope search: the scopes from the innermost, stopping after the first that added anything. */
  function ScopesSearch(env: Env, name: Ident, selfTy: Ty, derefs: nat, useAssignability: bool, scopes: seq<seq<Impl>>, seen: set<DefId>): (r: ScopePass)
    ensures |r.cands| == |r.added|
    ensures forall c :: c in r.cands ==> c.entry.derefs == derefs && c.selfTy == selfTy
  {
    if scopes == [] then ScopePass([], [])
    else
      var p := ImplsPass(env, name, selfTy, derefs, useAssignability, scopes[0], seen);
      if p.cands != [] then p else ScopesSearch(env, name, selfTy, derefs, useAssignability, scopes[1..], seen)
  }

  /** The first scope whose pass adds anything. */
  function FirstAddingScope(env: Env, name: Ident, selfTy: Ty, derefs: nat, useAssignability: bool, scopes: seq<seq<Impl>>, seen: set<DefId>): (r: Option<nat>)
    ensures r.Some? ==> r.value < |scopes| && ImplsPass(env, name, selfTy, derefs, useAssignability, scopes[r.value], seen).cands != []
    ensures r.Some? ==> forall j :: 0 <= j < r.value ==> ImplsPass(env, name, selfTy, derefs, useAssignability, scopes[j], seen).cands == []
    ensures r.None? ==> forall j :: 0 <= j < |scopes| ==> ImplsPass(env, name, selfTy, derefs, useAssignability, scopes[j], seen).cands == []
  {
    if scopes == [] then None
    else if ImplsPass(env, name, selfTy, derefs, useAssignability, scopes[0], seen).cands != [] then Some(0)
    else
      match FirstAddingScope(env, name, selfTy, derefs, useAssignability, scopes[1..], seen)
      case None => None
      case Some(k) => Some(k + 1)
  }

  /**
    What the scope search adds is exactly the pass of the first scope that
    adds anything (innermost first), and nothing when no scope does.
  */
  lemma {:induction false} ScopesSearchFirst(env: Env, name: Ident, selfTy: Ty, derefs: nat, useAssignability: bool, scopes: seq<seq<Impl>>, seen: set<DefId>)
    ensures ScopesSearch(env, name, selfTy, derefs, useAssignability, scopes, seen) ==
      match FirstAddingScope(env, name, selfTy, derefs, useAssignability, scopes, seen)
      case Some(i) => ImplsPass(env, name, selfTy, derefs, useAssignability, scopes[i], seen)
      case None => ScopePass([], [])
  {
    if scopes != [] && ImplsPass(env, name, selfTy, derefs, useAssignability, scopes[0], seen).cands == [] {
      ScopesSearchFirst(env, name, selfTy, derefs, useAssignability, scopes[1..], seen);
      match FirstAddingScope(env, name, selfTy, derefs, useAssignability, scopes[1..], seen)
      case None =>
      case Some(k) =>
        assert scopes[1..][k] == scopes[k + 1];
    }
  }

  /** The impls added, as a set. */
  function AddedSet(added: seq<DefId>): set<DefId>
  {
    set d | d in added
  }

  // ---------------------------------------------------------------- one level, and auto-dereference

  /** The first stage at the current receiver type: bounds, boxed trait or class; `None` is the fatal error. */
  function StageOne(env: Env, name: Ident, includePrivate: bool, st: LState): (r: Option<LState>)
    ensures r.Some? ==> r.value.selfTy == st.selfTy && r.value.derefs == st.derefs
    ensures r.Some? ==> r.value.candidateImpls == st.candidateImpls
  {
    match env.kind(st.selfTy)
    case TyParam(n, did) =>
      Some(st.(candidates := st.candidates + ParamCandidates(env, name, st.selfTy, st.derefs, n, env.bounds(did))))
    case TyTrait(did, substs) =>
      var a := TraitAdded(env, name, st.selfTy, st.derefs, did, substs, env.traitMethods(did));
      Some(st.(candidates := st.candidates + a.cands, diags := st.diags + a.diags))
    case TyClass(did, substs) =>
      var ms := env.traitMethods(did);
      if FirstPrivate(ms, name, includePrivate).Some? then None
      else Some(st.(candidates := st.candidates + ClassCandidates(env, name, st.selfTy, st.derefs, did, substs, ms)))
    case TyOther => Some(st)
  }

  /** A scope stage: the scope search from the impls listed so far, recording the impls it adds. */
  function ScopeStage(env: Env, name: Ident, useAssignability: bool, st: LState): (r: LState)
    ensures r.selfTy == st.selfTy && r.derefs == st.derefs && r.diags == st.diags
    ensures |r.candidates| >= |st.candidates| && r.candidates[..|st.candidates|] == st.candidates
    ensures forall c :: c in r.candidates[|st.candidates|..] ==> c.entry.derefs == st.derefs && c.selfTy == st.selfTy
  {
    var p := ScopesSearch(env, name, st.selfTy, st.derefs, useAssignability, env.scopes, st.candidateImpls);
    st.(candidates := st.candidates + p.cands, candidateImpls := st.candidateImpls + AddedSet(p.added))
  }

  /** The stages at one receiver type, in order, up to the first that leaves a candidate. */
  function Level(env: Env, name: Ident, includePrivate: bool, st: LState): (r: Option<LState>)
    ensures r.Some? ==> r.value.selfTy == st.selfTy && r.value.derefs == st.derefs
  {
    match StageOne(env, name, includePrivate, st)
    case None => None
    case Some(s1) =>
      if |s1.candidates| > 0 then Some(s1)
      else
        var s2 := ScopeStage(env, name, false, s1);
        if |s2.candidates| > 0 then Some(s2) else Some(ScopeStage(env, name, true, s2))
  }

  /** How one level of the search ends: the fatal error, a final state, or the state for the next level. */
  datatype Turn = TurnFatal | TurnDone(st: LState) | TurnNext(st: LState)

  /**
    One level and what follows it: stop at a candidate or where the
    receiver does not dereference, otherwise move to the dereferenced type
    and count the dereference.
  */
  function SearchTurn(env: Env, name: Ident, includePrivate: bool, st: LState): (r: Turn)
    ensures r.TurnNext? ==> env.deref(st.selfTy) == Some(r.st.selfTy) && r.st.derefs == st.derefs + 1
    ensures r.TurnNext? ==> r.st.candidates == []
    ensures r.TurnDone? ==> r.st.selfTy == st.selfTy && r.st.derefs == st.derefs
    ensures r.TurnDone? ==> r.st.candidates != [] || env.deref(r.st.selfTy).None?
  {
    match Level(env, name, includePrivate, st)
    case None => TurnFatal
    case Some(s) =>
      if |s.candidates| > 0 then TurnDone(s)
      else
        match env.deref(s.selfTy)
        case None => TurnDone(s)
        case Some(t) => TurnNext(s.(selfTy := t, derefs := s.derefs + 1))
  }

  /** The whole search: levels at the receiver and at each auto-dereference of it; `None` is the fatal error. */
  function Search(env: Env, name: Ident, includePrivate: bool, st: LState): (r: Option<LState>)
    requires env.Wf()
    decreases env.rank(st.selfTy)
  {
    match SearchTurn(env, name, includePrivate, st)
    case TurnFatal => None
    case TurnDone(s) => Some(s)
    case TurnNext(s) => Search(env, name, includePrivate, s)
  }

  /** The receiver type after `k` auto-dereferences, if they all succeed. */
  function DerefChain(env: Env, t: Ty, k: nat): Option<Ty>
  {
    if k == 0 then Some(t)
    else match DerefChain(env, t, k - 1)
      case None => None
      case Some(u) => env.deref(u)
  }

  /**
    A search that ends without the fatal error ends at the receiver reached
    by some number `k` of successful auto-dereferences, having counted each
    of them in `derefs`; it finds nothing only where `deref` fails.
  */
  lemma {:induction false} SearchEndsAtDeref(env: Env, name: Ident, includePrivate: bool, st: LState)
    requires env.Wf()
    ensures var r := Search(env, name, includePrivate, st);
      r.Some? ==> exists k: nat :: DerefChain(env, st.selfTy, k) == Some(r.value.selfTy) && r.value.derefs == st.derefs + k
    ensures var r := Search(env, name, includePrivate, st);
      r.Some? && |r.value.candidates| == 0 ==> env.deref(r.value.selfTy).None?
    decreases env.rank(st.selfTy)
  {
    var r := Search(env, name, includePrivate, st);
    match SearchTurn(env, name, includePrivate, st)
    case TurnFatal =>
    case TurnDone(s) =>
      assert r == Some(s);
      assert DerefChain(env, st.selfTy, 0) == Some(r.value.selfTy) && r.value.derefs == st.derefs + 0;
    case TurnNext(next) =>
      assert r == Search(env, name, includePrivate, next);
      SearchEndsAtDeref(env, name, includePrivate, next);
      if r.Some? {
        var k: nat :| DerefChain(env, next.selfTy, k) == Some(r.value.selfTy) && r.value.derefs == next.derefs + k;
        DerefChainStep(env, st.selfTy, next.selfTy, k);
        assert DerefChain(env, st.selfTy, k + 1) == Some(r.value.selfTy) && r.value.derefs == st.derefs + (k + 1);
      }
  }

  /** A chain from the dereference of `t` is one step longer from `t`. */
  lemma {:induction false} DerefChainStep(env: Env, t: Ty, u: Ty, k: nat)
    requires env.deref(t) == Some(u)
    ensures DerefChain(env, t, k + 1) == DerefChain(env, u, k)
  {
    if k > 0 {
      DerefChainStep(env, t, u, k - 1);
    }
  }

  /**
    Every candidate found was found at the level where the search stopped:
    it records that level's receiver and dereference count.
  */
  lemma {:induction false} SearchCandidatesAtLastLevel(env: Env, name: Ident, includePrivate: bool, st: LState)
    requires env.Wf() && st.candidates == []
    ensures var r := Search(env, name, includePrivate, st);
      r.Some? ==> forall c :: c in r.value.candidates ==> c.entry.derefs == r.value.derefs && c.selfTy == r.value.selfTy
    decreases env.rank(st.selfTy)
  {
    match SearchTurn(env, name, includePrivate, st)
    case TurnFatal =>
    case TurnDone(s) =>
      LevelCandidates(env, name, includePrivate, st);
    case TurnNext(next) =>
      SearchCandidatesAtLastLevel(env, name, includePrivate, next);
  }

  /** From no candidates, one level adds only candidates at its own receiver and dereference count. */
  lemma LevelCandidates(env: Env, name: Ident, includePrivate: bool, st: LState)
    requires st.candidates == []
    ensures var r := Level(env, name, includePrivate, st);
      r.Some? ==> forall c :: c in r.value.candidates ==> c.entry.derefs == st.derefs && c.selfTy == st.selfTy
  {
    match env.kind(st.selfTy) {
      case TyParam(n, did) =>
        ParamCandidatesShape(env, name, st.selfTy, st.derefs, n, env.bounds(did));
      case TyClass(did, substs) =>
        ClassCandidatesShape(env, name, st.selfTy, st.derefs, did, substs, env.traitMethods(did));
      case _ =>
    }
    match StageOne(env, name, includePrivate, st)
    case None =>
    case Some(s1) =>
      if |s1.candidates| == 0 {
        var s2 := ScopeStage(env, name, false, s1);
        assert s2.candidates == s2.candidates[|s1.candidates|..];
        if |s2.candidates| == 0 {
          var s3 := ScopeStage(env, name, true, s2);
          assert s3.candidates == s3.candidates[|s2.candidates|..];
        }
      }
  }

  // ---------------------------------------------------------------- the chosen candidate

  /** The method's type arguments, and the error found choosing them. */
  datatype TpsChoice = TpsChoice(tps: seq<Ty>, err: Option<Diag>)

  /**
    The type arguments for a method with `nTpsM` type parameters given
    `supplied` explicit ones: none supplied means fresh variables; supplied
    to a method with no type parameters, or in the wrong number, is an error
    and fresh variables are used; otherwise the supplied ones.
  */
  function ChooseMethodTps(supplied: seq<Ty>, nTpsM: nat, freshVars: seq<Ty>): (r: TpsChoice)
    requires |freshVars| == nTpsM
    ensures |r.tps| == nTpsM
    ensures r.err.None? <==> supplied == [] || |supplied| == nTpsM
    ensures r.err.None? && supplied != [] ==> r.tps == supplied
    ensures supplied == [] || r.err.Some? ==> r.tps == freshVars
    ensures r.err.Some? ==> r.err.value == (if nTpsM == 0 then NoTypeParams else WrongTypeParamCount)
  {
    if |supplied| == 0 then TpsChoice(freshVars, None)
    else if nTpsM == 0 then TpsChoice(freshVars, Some(NoTypeParams))
    else if |supplied| != nTpsM then TpsChoice(freshVars, Some(WrongTypeParamCount))
    else TpsChoice(supplied, None)
  }

  /** One note per candidate, numbered from 1, naming where it comes from. */
  function CandidateNotes(cands: seq<Candidate>): (ds: seq<Diag>)
    ensures |ds| == |cands| && forall i :: 0 <= i < |cands| ==> ds[i] == CandidateNote(i + 1, cands[i].entry.origin)
  {
    if cands == [] then []
    else
      var k := |cands| - 1;
      var front := CandidateNotes(cands[..k]);
      assert forall i :: 0 <= i < k ==> cands[..k][i] == cands[i];
      front + [CandidateNote(k + 1, cands[k].entry.origin)]
  }

  /** The complaint about several candidates: one error, then the notes. */
  function AmbiguityDiags(cands: seq<Candidate>): (ds: seq<Diag>)
    ensures |cands| <= 1 ==> ds == []
    ensures |cands| > 1 ==> |ds| == |cands| + 1 && ds[0] == MultipleApplicable && ds[1..] == CandidateNotes(cands)
  {
    if |cands| <= 1 then [] else [MultipleApplicable] + CandidateNotes(cands)
  }

  /** What the lookup gives back. */
  datatype LookupResult = Found(entry: Entry) | NotFound | Fatal | Bug

  /** The type written for the call: the method's type and its substitutions. */
  datatype Written = Written(fty: Ty, substs: Substs)

  /** What the lookup leaves behind: its result, the diagnostics, and the type written for the call. */
  datatype Outcome = Outcome(result: LookupResult, diags: seq<Diag>, written: Option<Written>)

  /**
    The end of the lookup from state `s`: no candidate is `NotFound`;
    otherwise several candidates are reported, the first is used, and its
    receiver must be assignable (else an internal compiler error), its type
    and substitutions are written and its entry returned.
  */
  function Conclude(env: Env, supplied: seq<Ty>, s: LState, w: Option<Written>): (o: Outcome)
    requires env.Wf()
    ensures o.result == NotFound <==> s.candidates == []
    ensures o.result.Found? ==> o.result.entry == s.candidates[0].entry
    ensures |o.diags| >= |s.diags| && o.diags[..|s.diags|] == s.diags
    ensures |s.candidates| > 1 ==>
      |o.diags| >= |s.diags| + |s.candidates| + 1 &&
      o.diags[|s.diags|..|s.diags| + |s.candidates| + 1] == AmbiguityDiags(s.candidates)
    ensures !o.result.Found? ==> o.written == w
  {
    if s.candidates == [] then Outcome(NotFound, s.diags, w)
    else
      var c := s.candidates[0];
      var ds := s.diags + AmbiguityDiags(s.candidates);
      if !env.mkAssignty(c.selfTy, c.rcvrTy) then Outcome(Bug, ds, w)
      else
        var ch := ChooseMethodTps(supplied, c.nTpsM, env.nextTyVars(c.nTpsM));
        Outcome(Found(c.entry), ds + (if ch.err.Some? then [ch.err.value] else []), Some(Written(c.fty, AllSubsts(c, ch))))
  }

  /** The substitutions written for candidate `c`: the class's type parameters followed by the method's. */
  function AllSubsts(c: Candidate, m: TpsChoice): (s: Substs)
    ensures s.selfR == c.selfSubsts.selfR && s.selfTy == c.selfSubsts.selfTy
    ensures |s.tps| == |c.selfSubsts.tps| + |m.tps|
    ensures s.tps[..|c.selfSubsts.tps|] == c.selfSubsts.tps && s.tps[|c.selfSubsts.tps|..] == m.tps
  {
    c.selfSubsts.(tps := c.selfSubsts.tps + m.tps)
  }

  // ---------------------------------------------------------------- the lookup object

  class Lookup {
    const env: Env
    const mName: Ident
    const suppliedTps: seq<Ty>
    const includePrivate: bool
    var selfTy: Ty
    var derefs: nat
    var candidates: seq<Candidate>
    var candidateImpls: set<DefId>
    var diags: seq<Diag>
    var written: Option<Written>

    function Snapshot(): LState
      reads this
    {
      LState(selfTy, derefs, candidates, candidateImpls, diags)
    }

    constructor (env: Env, mName: Ident, selfTy: Ty, suppliedTps: seq<Ty>, includePrivate: bool)
      ensures this.env == env && this.mName == mName && this.suppliedTps == suppliedTps && this.includePrivate == includePrivate
      ensures Snapshot() == LState(selfTy, 0, [], {}, []) && written == None
    {
      this.env := env;
      this.mName := mName;
      this.selfTy := selfTy;
      this.derefs := 0;
      this.candidates := [];
      this.candidateImpls := {};
      this.suppliedTps := suppliedTps;
      this.includePrivate := includePrivate;
      this.diags := [];
      this.written := None;
    }

    /** `add_candidates_from_m`. */
    method AddCandidateFromM(substs: Substs, m: MethodSig, origin: Origin)
      modifies this
      ensures Snapshot() == old(Snapshot()).(candidates := old(candidates) + [FromM(env, selfTy, derefs, substs, m, origin)])
      ensures written == old(written)
    {
      candidates := candidates + [FromM(env, selfTy, derefs, substs, m, origin)];
    }

    /** `add_candidates_from_param`: the bounds of parameter `n`, counting the trait bounds that lack the method. */
    method AddCandidatesFromParam(n: nat, did: DefId)
      modifies this
      ensures Snapshot() == old(Snapshot()).(candidates := old(candidates) + ParamCandidates(env, mName, selfTy, derefs, n, env.bounds(did)))
      ensures written == old(written)
    {
      var bounds := env.bounds(did);
      var traitBndIdx := 0;
      for i := 0 to |bounds|
        invariant Snapshot() == old(Snapshot()).(candidates := old(candidates) + ParamCandidates(env, mName, selfTy, derefs, n, bounds[..i]))
        invariant traitBndIdx == LackingCount(env, mName, bounds[..i])
        invariant written == old(written)
      {
        assert bounds[..i + 1][..i] == bounds[..i];
        match bounds[i]
        case BoundTrait(iid, boundSubsts) =>
          var ifceMethods := env.traitMethods(iid);
          match FindIdent(ifceMethods, mName) {
            case None =>
              traitBndIdx := traitBndIdx + 1;
            case Some(pos) =>
              AddCandidateFromM(boundSubsts.(selfTy := Some(selfTy)), ifceMethods[pos], MethodParam(iid, pos, n, traitBndIdx));
          }
        case _ =>
      }
      assert bounds[..|bounds|] == bounds;
    }

    /** `add_candidates_from_trait`: every method with the name, errors or not. */
    method AddCandidatesFromTrait(did: DefId, traitSubsts: Substs)
      modifies this
      ensures var a := TraitAdded(env, mName, selfTy, derefs, did, traitSubsts, env.traitMethods(did));
        Snapshot() == old(Snapshot()).(candidates := old(candidates) + a.cands, diags := old(diags) + a.diags)
      ensures written == old(written)
    {
      var ms := env.traitMethods(did);
      for i := 0 to |ms|
        invariant var a := TraitAdded(env, mName, selfTy, derefs, did, traitSubsts, ms[..i]);
          Snapshot() == old(Snapshot()).(candidates := old(candidates) + a.cands, diags := old(diags) + a.diags)
        invariant written == old(written)
      {
        assert ms[..i + 1][..i] == ms[..i];
        var m := ms[i];
        if m.ident == mName {
          if env.hasSelf(m.fty) {
            diags := diags + [SelfTypeThroughTrait];
          }
          if m.nTps > 0 {
            diags := diags + [GenericThroughTrait];
          }
          AddCandidateFromM(traitSubsts.(selfTy := Some(selfTy)), m, MethodTrait(did, i));
        }
      }
      assert ms[..|ms|] == ms;
    }

    /** `add_candidates_from_class`; returns true at the fatal error for a private method. */
    method AddCandidatesFromClass(did: DefId, classSubsts: Substs) returns (fatal: bool)
      modifies this
      ensures var ms := env.traitMethods(did);
        var stop := FirstPrivate(ms, mName, includePrivate);
        && fatal == stop.Some?
        && Snapshot() == old(Snapshot()).(candidates := old(candidates) +
             ClassCandidates(env, mName, selfTy, derefs, did, classSubsts, ms[..if stop.Some? then stop.value else |ms|]))
      ensures written == old(written)
    {
      var ms := env.traitMethods(did);
      ghost var stop := FirstPrivate(ms, mName, includePrivate);
      fatal := false;
      for i := 0 to |ms|
        invariant stop.None? || i <= stop.value
        invariant Snapshot() == old(Snapshot()).(candidates := old(candidates) + ClassCandidates(env, mName, selfTy, derefs, did, classSubsts, ms[..i]))
        invariant written == old(written)
      {
        assert ms[..i + 1][..i] == ms[..i];
        var m := ms[i];
        if m.ident == mName {
          if m.vis == Private && !includePrivate {
            fatal := true;
            return;
          }
          var mDeclared := env.classMethodByName(did, mName);
          AddCandidateFromM(classSubsts, m, MethodStatic(mDeclared));
        }
      }
      assert ms[..|ms|] == ms;
    }
  
    /**
      One scope of `add_candidates_from_scope`: each impl with the method
      whose self type matches gives one candidate unless it is already listed.
    */
    method AddCandidatesFromImpls(impls: seq<Impl>, useAssignability: bool) returns (addedAny: bool)
      modifies this
      ensures var p := ImplsPass(env, mName, selfTy, derefs, useAssignability, impls, old(candidateImpls));
        && Snapshot() == old(Snapshot()).(candidates := old(candidates) + p.cands, candidateImpls := old(candidateImpls) + AddedSet(p.added))
        && addedAny == (p.cands != [])
      ensures written == old(written)
    {
      ghost var seen := candidateImpls;
      ghost var pass := ScopePass([], []);
      addedAny := false;
      for i := 0 to |impls|
        invariant selfTy == old(selfTy) && derefs == old(derefs) && diags == old(diags) && written == old(written)
        invariant pass == ImplsPass(env, mName, selfTy, derefs, useAssignability, impls[..i], seen)
        invariant candidates == old(candidates) + pass.cands
        invariant candidateImpls == seen + AddedSet(pass.added)
        invariant addedAny == (pass.cands != [])
      {
        assert impls[..i + 1][..i] == impls[..i];
        ghost var front := pass;
        ghost var next := ImplsPass(env, mName, selfTy, derefs, useAssignability, impls[..i + 1], seen);
        var im := impls[i];
        var found := FindImplMethod(im.methods, mName);
        if found.Some? {
          var m := found.value;
          var (implSubsts, implTy) := env.implSelfTy(im.did);
          var matches := if useAssignability then env.canMkAssignty(selfTy, implTy) else env.canMkSubty(selfTy, implTy);
          assert matches == ImplMatches(env, selfTy, useAssignability, im);
          if matches && im.did !in candidateImpls {
            var fty := env.itemFnTy(m.did);
            var c := Candidate(selfTy, implSubsts, implTy, m.nTps, fty, Entry(derefs, MethodStatic(m.did)));
            assert next == ScopePass(front.cands + [c], front.added + [im.did]);
            candidates := candidates + [c];
            candidateImpls := candidateImpls + {im.did};
            addedAny := true;
            assert AddedSet(front.added + [im.did]) == AddedSet(front.added) + {im.did};
          } else {
            assert next == front;
          }
        } else {
          assert next == front;
        }
        pass := next;
      }
      assert impls[..|impls|] == impls;
    }

    /**
      `add_candidates_from_scope`: the impl scopes from the innermost,
      stopping after the first scope that added any candidate.
    */
    method AddCandidatesFromScope(useAssignability: bool)
      modifies this
      ensures Snapshot() == ScopeStage(env, mName, useAssignability, old(Snapshot()))
      ensures written == old(written)
    {
      var implsVecs := env.scopes;
      ghost var seen := candidateImpls;
      ghost var whole := ScopesSearch(env, mName, selfTy, derefs, useAssignability, implsVecs, seen);
      assert AddedSet([]) == {};
      var s := 0;
      while s < |implsVecs|
        invariant 0 <= s <= |implsVecs|
        invariant whole == ScopesSearch(env, mName, selfTy, derefs, useAssignability, implsVecs[s..], seen)
        invariant Snapshot() == old(Snapshot()) && written == old(written)
      {
        assert implsVecs[s..][0] == implsVecs[s] && implsVecs[s..][1..] == implsVecs[s + 1..];
        var addedAny := AddCandidatesFromImpls(implsVecs[s], useAssignability);
        if addedAny {
          return;
        }
        s := s + 1;
      }
    }

    /** The diagnostics for several applicable methods: one error, then one note per candidate. */
    method ReportAmbiguity()
      requires |candidates| > 1
      modifies this
      ensures Snapshot() == old(Snapshot()).(diags := old(diags) + AmbiguityDiags(candidates))
      ensures written == old(written)
    {
      diags := diags + [MultipleApplicable];
      NoteCandidates();
      assert diags == old(diags) + ([MultipleApplicable] + CandidateNotes(candidates));
    }

    /** The loop over the candidates of `method`: one note each, numbered from 1. */
    method NoteCandidates()
      modifies this
      ensures diags == old(diags) + CandidateNotes(candidates)
      ensures selfTy == old(selfTy) && derefs == old(derefs) && candidates == old(candidates)
      ensures candidateImpls == old(candidateImpls) && written == old(written)
    {
      var i := 0;
      while i < |candidates|
        invariant i <= |candidates|
        invariant selfTy == old(selfTy) && derefs == old(derefs) && candidates == old(candidates)
        invariant candidateImpls == old(candidateImpls) && written == old(written)
        invariant diags == old(diags) + CandidateNotes(candidates[..i])
      {
        assert candidates[..i + 1][..i] == candidates[..i];
        diags := diags + [CandidateNote(i + 1, candidates[i].entry.origin)];
        i := i + 1;
      }
      assert candidates[..|candidates|] == candidates;
    }

    /**
      `write_mty_from_candidate`: the receiver must be assignable to the
      method's receiver type (otherwise an internal compiler error); the
      written substitutions are the class's type parameters then the
      method's chosen ones.
    */
    method WriteMtyFromCandidate(cand: Candidate) returns (r: LookupResult)
      requires env.Wf()
      modifies this
      ensures !env.mkAssignty(cand.selfTy, cand.rcvrTy) ==>
        r == Bug && Snapshot() == old(Snapshot()) && written == old(written)
      ensures env.mkAssignty(cand.selfTy, cand.rcvrTy) ==>
        var ch := ChooseMethodTps(suppliedTps, cand.nTpsM, env.nextTyVars(cand.nTpsM));
        && r == Found(cand.entry)
        && written == Some(Written(cand.fty, AllSubsts(cand, ch)))
        && Snapshot() == old(Snapshot()).(diags := old(diags) + (if ch.err.Some? then [ch.err.value] else []))
    {
      if !env.mkAssignty(cand.selfTy, cand.rcvrTy) {
        r := Bug;
        return;
      }
      var mSubsts := ChooseMethodTps(suppliedTps, cand.nTpsM, env.nextTyVars(cand.nTpsM));
      if mSubsts.err.Some? {
        diags := diags + [mSubsts.err.value];
      }
      written := Some(Written(cand.fty, AllSubsts(cand, mSubsts)));
      r := Found(cand.entry);
    }

    /** One pass of the loop of `method` up to the auto-dereference: the stages in order; true at the fatal error. */
    method LevelStep() returns (fatal: bool)
      modifies this
      ensures fatal == Level(env, mName, includePrivate, old(Snapshot())).None?
      ensures !fatal ==> Snapshot() == Level(env, mName, includePrivate, old(Snapshot())).value
      ensures written == old(written)
    {
      fatal := false;
      match env.kind(selfTy) {
        case TyParam(n, did) =>
          AddCandidatesFromParam(n, did);
        case TyTrait(did, substs) =>
          AddCandidatesFromTrait(did, substs);
        case TyClass(did, substs) =>
          fatal := AddCandidatesFromClass(did, substs);
          ghost var ms := env.traitMethods(did);
          assert ms[..|ms|] == ms;
        case TyOther =>
      }
      if fatal {
        return;
      }
      if |candidates| == 0 {
        AddCandidatesFromScope(false);
        if |candidates| == 0 {
          AddCandidatesFromScope(true);
        }
      }
    }

    /**
      The loop of `method`: the stages at the current receiver type, and
      while none left a candidate, auto-dereference and repeat; true at the
      fatal error.
    */
    method SearchLoop() returns (fatal: bool)
      requires env.Wf()
      modifies this
      ensures Search(env, mName, includePrivate, old(Snapshot())) == if fatal then None else Some(Snapshot())
      ensures written == old(written)
    {
      ghost var spec := Search(env, mName, includePrivate, Snapshot());
      var stop := false;
      fatal := false;
      while !stop
        invariant !stop ==> Search(env, mName, includePrivate, Snapshot()) == spec
        invariant stop ==> spec == if fatal then None else Some(Snapshot())
        invariant written == old(written)
        decreases if stop then 0 else env.rank(selfTy) + 1
      {
        fatal, stop := SearchStep();
      }
    }

    /**
      One turn of the loop in `method`: a level, then either stop (fatal,
      found, or nothing to dereference) or move to the dereferenced type.
    */
    method SearchStep() returns (fatal: bool, stop: bool)
      modifies this
      ensures match SearchTurn(env, mName, includePrivate, old(Snapshot()))
        case TurnFatal => fatal && stop
        case TurnDone(s) => !fatal && stop && Snapshot() == s
        case TurnNext(s) => !fatal && !stop && Snapshot() == s
      ensures written == old(written)
    {
      ghost var pre := Snapshot();
      fatal := LevelStep();
      if fatal {
        stop := true;
      } else if |candidates| > 0 {
        stop := true;
      } else {
        stop := false;
        ghost var s := Snapshot();
        match env.deref(selfTy) {
          case None =>
            stop := true;
          case Some(t) =>
            selfTy := t;
            derefs := derefs + 1;
            assert Snapshot() == s.(selfTy := t, derefs := s.derefs + 1);
        }
      }
    }

    /** The end of `method`: nothing found, or report ambiguity and write the first candidate's type. */
    method Conclusion() returns (r: LookupResult)
      requires env.Wf()
      modifies this
      ensures Snapshot() == old(Snapshot()).(diags := diags)
      ensures Outcome(r, diags, written) == Conclude(env, suppliedTps, old(Snapshot()), old(written))
    {
      if |candidates| == 0 {
        r := NotFound;
        return;
      }
      if |candidates| > 1 {
        ReportAmbiguity();
      }
      r := WriteMtyFromCandidate(candidates[0]);
    }

    /**
      `method`: at each receiver type try its own methods, the impls in scope
      by subtyping and then by assignability, stopping at the first stage
      that leaves a candidate; otherwise auto-dereference and repeat.  No
      candidate is `NotFound`; several are reported, and the first is used.
    */
    method Method() returns (r: LookupResult)
      requires env.Wf()
      modifies this
      ensures var sr := Search(env, mName, includePrivate, old(Snapshot()));
        sr.None? ==> r == Fatal
      ensures var sr := Search(env, mName, includePrivate, old(Snapshot()));
        sr.Some? ==>
          Snapshot() == sr.value.(diags := diags) && Outcome(r, diags, written) == Conclude(env, suppliedTps, sr.value, old(written))
    {
      var fatal := SearchLoop();
      if fatal {
        r := Fatal;
        return;
      }
      r := Conclusion();
    }
  }
}
