/**
 * What identifies an execution: the canonical text of a request, and that two
 * requests have one text exactly when they are the same execution.
 */
module Fingerprint {
  import opened Wrappers
  import opened Json

  datatype Reference = Reference(role: Units, text: Units)

  /** A budget field as a recipe declares it. */
  datatype Declared = Absent | NotFinite | Given(value: real)

  datatype Recipe = Recipe(
    key: Units, version: int, soul: Units, toolFamilies: seq<Units>, enabled: bool,
    maxTurns: Declared, maxWallMs: Declared, historyWindow: int, reportMetrics: bool, modelId: Units)

  /** An object's own entries, in the order they were put there. */
  type Entries = seq<(Units, Units)>

  datatype Request = Request(
    taskId: Units, subtaskId: nat, kind: Units, recipe: Recipe, prompt: Units,
    references: seq<Reference>, params: Entries)

  /** An object has each key once. */
  ghost predicate DistinctKeys(entries: Entries) {
    forall i, j :: 0 <= i < j < |entries| ==> entries[i].0 != entries[j].0
  }

  // ---- limits ---------------------------------------------------------------------------------

  /** Only a positive integer counts; anything else is as good as absent. */
  function Kept(d: Declared): Option<nat> {
    if d.Given? && d.value == d.value.Floor as real && d.value > 0.0 then Some(d.value.Floor) else None
  }

  function LimitFields(name: string, d: Declared, rest: Fields): Fields
    requires Ascii(name)
  {
    match Kept(d)
    case Some(n) => Field(U(name), Number(n), rest)
    case None => rest
  }

  function CanonicalLimits(maxTurns: Declared, maxWallMs: Declared): Fields {
    LimitFields("maxTurns", maxTurns, LimitFields("maxWallMs", maxWallMs, NoMore))
  }

  // ---- the order of an object's keys ----------------------------------------------------------------

  /** Code unit order. */
  predicate Lex(a: Units, b: Units)
    decreases a
  {
    if b == [] then false
    else if a == [] then true
    else a[0] < b[0] || (a[0] == b[0] && Lex(a[1..], b[1..]))
  }

  /** A key that is an array index: a numeral without a leading zero, below 2^32 - 1. */
  predicate IsIndex(k: Units) {
    && 1 <= |k| <= 10
    && (forall i :: 0 <= i < |k| ==> DigitUnit(k[i]))
    && (k[0] == 48 ==> |k| == 1)
    && IndexValue(k) < 0xFFFF_FFFF
  }

  function IndexValue(k: Units): int
    decreases k
  {
    if k == [] then 0 else 10 * IndexValue(k[..|k| - 1]) + k[|k| - 1] - 48
  }

  /** The order an object lists its keys in: indexes by value, then the rest, which were put there sorted. */
  predicate Before(a: Units, b: Units) {
    if IsIndex(a) != IsIndex(b) then IsIndex(a)
    else if IsIndex(a) && IndexValue(a) != IndexValue(b) then IndexValue(a) < IndexValue(b)
    else Lex(a, b)
  }

  function Inserted(e: (Units, Units), entries: Entries): Entries
    decreases entries
  {
    if entries == [] || Before(e.0, entries[0].0) then [e] + entries else [entries[0]] + Inserted(e, entries[1..])
  }

  function Listed(entries: Entries): Entries
    decreases entries
  {
    if entries == [] then [] else Inserted(entries[|entries| - 1], Listed(entries[..|entries| - 1]))
  }

  function ParamFields(entries: Entries): Fields
    decreases entries
  {
    if entries == [] then NoMore else Field(entries[0].0, String(entries[0].1), ParamFields(entries[1..]))
  }

  // ---- the canonical request ------------------------------------------------------------------------------

  function Strings(all: seq<Units>): Items
    decreases all
  {
    if all == [] then Nil else Item(String(all[0]), Strings(all[1..]))
  }

  function ReferenceItems(references: seq<Reference>): Items
    decreases references
  {
    if references == [] then Nil
    else
      Item(Object(Field(U("role"), String(references[0].role), Field(U("text"), String(references[0].text), NoMore))),
           ReferenceItems(references[1..]))
  }

  function CanonicalRecipe(r: Recipe): Value {
    Object(
      Field(U("key"), String(r.key),
      Field(U("version"), Number(r.version),
      Field(U("soul"), String(r.soul),
      Field(U("toolFamilies"), Array(Strings(r.toolFamilies)),
      Field(U("enabled"), Bool(r.enabled),
      Field(U("limits"), Object(CanonicalLimits(r.maxTurns, r.maxWallMs)),
      Field(U("historyWindow"), Number(r.historyWindow),
      Field(U("reportMetrics"), Bool(r.reportMetrics), NoMore)))))))))
  }

  function Canonical(r: Request): Value {
    Object(
      Field(U("v"), Number(1),
      Field(U("taskId"), String(r.taskId),
      Field(U("subtaskId"), Number(r.subtaskId),
      Field(U("type"), String(r.kind),
      Field(U("recipe"), CanonicalRecipe(r.recipe),
      Field(U("prompt"), String(r.prompt),
      Field(U("references"), Array(ReferenceItems(r.references)),
      Field(U("params"), Object(ParamFields(Listed(r.params))), NoMore)))))))))
  }

  function CanonicalText(r: Request): Units {
    Printed(Canonical(r))
  }

  // ---- identity ------------------------------------------------------------------------------------------------

  /** The same keys with the same values, in whatever order. */
  ghost predicate SameParams(a: Entries, b: Entries) {
    forall e :: e in a <==> e in b
  }

  predicate IsLimit(d: Declared, n: nat) {
    n >= 1 && d == Given(n as real)
  }

  /** The same positive integer, or neither of them one. */
  ghost predicate SameLimit(a: Declared, b: Declared) {
    forall n: nat :: IsLimit(a, n) <==> IsLimit(b, n)
  }

  ghost predicate SameRecipe(a: Recipe, b: Recipe) {
    && a.key == b.key && a.version == b.version && a.soul == b.soul && a.toolFamilies == b.toolFamilies
    && a.enabled == b.enabled && SameLimit(a.maxTurns, b.maxTurns) && SameLimit(a.maxWallMs, b.maxWallMs)
    && a.historyWindow == b.historyWindow && a.reportMetrics == b.reportMetrics
  }

  /** The same execution. The models it would run on are no part of it. */
  ghost predicate SameExecution(a: Request, b: Request) {
    && a.taskId == b.taskId && a.subtaskId == b.subtaskId && a.kind == b.kind
    && SameRecipe(a.recipe, b.recipe) && a.prompt == b.prompt && a.references == b.references
    && SameParams(a.params, b.params)
  }

  // ---- proofs --------------------------------------------------------------------------------------------------

  lemma {:induction false} LexTransitive(a: Units, b: Units, c: Units)
    requires Lex(a, b) && Lex(b, c)
    ensures Lex(a, c)
    decreases a
  {
    if a != [] && a[0] == b[0] && b[0] == c[0] {
      LexTransitive(a[1..], b[1..], c[1..]);
    }
  }

  lemma {:induction false} LexTotal(a: Units, b: Units)
    ensures a == b || Lex(a, b) || Lex(b, a)
    ensures !Lex(a, a)
    decreases a
  {
    if a != [] {
      if b != [] && a[0] == b[0] {
        LexTotal(a[1..], b[1..]);
        assert a == [a[0]] + a[1..] && b == [b[0]] + b[1..];
      } else {
        LexTotal(a[1..], a[1..]);
      }
    }
  }

  lemma BeforeTransitive(a: Units, b: Units, c: Units)
    requires Before(a, b) && Before(b, c)
    ensures Before(a, c)
  {
    if Lex(a, b) && Lex(b, c) {
      LexTransitive(a, b, c);
    }
  }

  lemma BeforeTotal(a: Units, b: Units)
    ensures a == b || Before(a, b) || Before(b, a)
    ensures !Before(a, a)
  {
    LexTotal(a, b);
  }

  ghost predicate Ascending(entries: Entries) {
    forall i, j :: 0 <= i < j < |entries| ==> Before(entries[i].0, entries[j].0)
  }

  lemma {:induction false} InsertedAscends(e: (Units, Units), entries: Entries)
    requires Ascending(entries) && forall i :: 0 <= i < |entries| ==> entries[i].0 != e.0
    ensures Ascending(Inserted(e, entries))
    ensures forall x :: x in Inserted(e, entries) <==> x == e || x in entries
    decreases entries
  {
    hide Before;
    if entries != [] {
      BeforeTotal(e.0, entries[0].0);
      if Before(e.0, entries[0].0) {
        forall i | 0 <= i < |entries|
          ensures Before(e.0, entries[i].0)
        {
          if i > 0 {
            BeforeTransitive(e.0, entries[0].0, entries[i].0);
          }
        }
      } else {
        InsertedAscends(e, entries[1..]);
        InsertedBehind(e, entries);
      }
    }
  }

  lemma InsertedBehind(e: (Units, Units), entries: Entries)
    requires entries != [] && Ascending(entries) && Before(entries[0].0, e.0) && !Before(e.0, entries[0].0)
    requires Ascending(Inserted(e, entries[1..]))
    requires forall x :: x in Inserted(e, entries[1..]) <==> x == e || x in entries[1..]
    ensures Ascending(Inserted(e, entries))
    ensures forall x :: x in Inserted(e, entries) <==> x == e || x in entries
  {
    hide Before;
    var rest := Inserted(e, entries[1..]);
    assert Inserted(e, entries) == [entries[0]] + rest;
    forall i | 0 <= i < |rest|
      ensures Before(entries[0].0, rest[i].0)
    {
      assert rest[i] in rest;
    }
    assert forall x :: x in entries <==> x == entries[0] || x in entries[1..];
  }

  lemma {:induction false} ListedAscends(entries: Entries)
    requires DistinctKeys(entries)
    ensures Ascending(Listed(entries))
    ensures forall x :: x in Listed(entries) <==> x in entries
    decreases entries
  {
    if entries != [] {
      var n := |entries| - 1;
      ListedAscends(entries[..n]);
      forall i | 0 <= i < |Listed(entries[..n])|
        ensures Listed(entries[..n])[i].0 != entries[n].0
      {
        assert Listed(entries[..n])[i] in entries[..n];
      }
      InsertedAscends(entries[n], Listed(entries[..n]));
      assert forall x :: x in entries <==> x in entries[..n] || x == entries[n];
    }
  }

  /** Where the two keys first differ, this one ends or has the smaller unit. */
  ghost predicate Smaller(a: Units, b: Units) {
    exists k :: 0 <= k <= |a| && k < |b| && a[..k] == b[..k] && (k == |a| || a[k] < b[k])
  }

  lemma {:induction false} LexIsSmaller(a: Units, b: Units)
    requires Lex(a, b)
    ensures Smaller(a, b)
    decreases a
  {
    if a == [] || a[0] < b[0] {
      assert a[..0] == b[..0];
    } else {
      LexIsSmaller(a[1..], b[1..]);
      var k :| 0 <= k <= |a[1..]| && k < |b[1..]| && a[1..][..k] == b[1..][..k] && (k == |a[1..]| || a[1..][k] < b[1..][k]);
      assert a[..k + 1] == [a[0]] + a[1..][..k] && b[..k + 1] == [b[0]] + b[1..][..k];
    }
  }

  /** Params are listed as an object lists its keys: array indexes first, by value, and the rest by code units. */
  lemma ParamsAreListedInOrder(entries: Entries, i: nat, j: nat)
    requires DistinctKeys(entries) && i < j < |Listed(entries)|
    ensures
      var a, b := Listed(entries)[i].0, Listed(entries)[j].0;
      if IsIndex(a) && IsIndex(b) then IndexValue(a) < IndexValue(b) || (IndexValue(a) == IndexValue(b) && Smaller(a, b))
      else IsIndex(a) || (!IsIndex(b) && Smaller(a, b))
  {
    ListedAscends(entries);
    var a, b := Listed(entries)[i].0, Listed(entries)[j].0;
    assert Before(a, b);
    hide IsIndex, IndexValue, Smaller, Listed;
    if Lex(a, b) {
      LexIsSmaller(a, b);
    }
  }

  lemma Members(b: Entries)
    ensures b == [] || b[0] in b
  {}

  /** An ascending list is all there is to say about its entries. */
  lemma {:induction false} AscendingIsUnique(a: Entries, b: Entries)
    requires Ascending(a) && Ascending(b)
    requires forall x :: x in a <==> x in b
    ensures a == b
    decreases a
  {
    hide Before;
    if a == [] {
      Members(b);
    } else {
      assert a[0] in b && a[0] in a;
      assert b != [] && b[0] in a by {
        assert b[0] in b;
      }
      FirstIsFirst(a, b);
      forall x
        ensures x in a[1..] <==> x in b[1..]
      {
        RestWithoutFirst(a, x);
        RestWithoutFirst(b, x);
      }
      AscendingIsUnique(a[1..], b[1..]);
      assert a == [a[0]] + a[1..] && b == [b[0]] + b[1..];
    }
  }

  lemma RestWithoutFirst(a: Entries, x: (Units, Units))
    requires a != [] && Ascending(a)
    ensures x in a[1..] <==> x in a && x != a[0]
  {
    if x in a[1..] {
      var i :| 0 <= i < |a[1..]| && a[1..][i] == x;
      assert Before(a[0].0, a[i + 1].0);
      BeforeTotal(a[0].0, a[0].0);
    }
  }

  lemma FirstIsFirst(a: Entries, b: Entries)
    requires a != [] && b != [] && Ascending(a) && Ascending(b)
    requires a[0] in b && b[0] in a
    ensures a[0] == b[0]
  {
    hide Before;
    var i :| 0 <= i < |b| && b[i] == a[0];
    var j :| 0 <= j < |a| && a[j] == b[0];
    if i > 0 && j > 0 {
      BeforeTransitive(a[0].0, a[j].0, b[i].0);
      BeforeTotal(a[0].0, a[0].0);
    }
  }

  lemma ParamsListedAlike(a: Entries, b: Entries)
    requires DistinctKeys(a) && DistinctKeys(b)
    ensures Listed(a) == Listed(b) <==> SameParams(a, b)
  {
    ListedAscends(a);
    ListedAscends(b);
    if SameParams(a, b) {
      AscendingIsUnique(Listed(a), Listed(b));
    } else if Listed(a) == Listed(b) {
      assert forall e :: e in a <==> e in Listed(b);
    }
  }

  lemma {:induction false} ParamFieldsInjective(a: Entries, b: Entries)
    requires ParamFields(a) == ParamFields(b)
    ensures a == b
    decreases a
  {
    if a != [] && b != [] {
      ParamFieldsInjective(a[1..], b[1..]);
      assert a == [a[0]] + a[1..] && b == [b[0]] + b[1..];
    }
  }

  lemma {:induction false} StringsInjective(a: seq<Units>, b: seq<Units>)
    requires Strings(a) == Strings(b)
    ensures a == b
    decreases a
  {
    if a != [] && b != [] {
      StringsInjective(a[1..], b[1..]);
      assert a == [a[0]] + a[1..] && b == [b[0]] + b[1..];
    }
  }

  lemma {:induction false} ReferencesInjective(a: seq<Reference>, b: seq<Reference>)
    requires ReferenceItems(a) == ReferenceItems(b)
    ensures a == b
    decreases a
  {
    if a != [] && b != [] {
      ReferencesInjective(a[1..], b[1..]);
      assert a == [a[0]] + a[1..] && b == [b[0]] + b[1..];
    }
  }

  /** Fields that are left out leave no room for confusion: the two limits have different names. */
  lemma LimitsInjective(t: Declared, w: Declared, u: Declared, x: Declared)
    requires CanonicalLimits(t, w) == CanonicalLimits(u, x)
    ensures Kept(t) == Kept(u) && Kept(w) == Kept(x)
  {
    assert U("maxTurns")[3] == 'T' as nat && U("maxWallMs")[3] == 'W' as nat;
    assert U("maxTurns") != U("maxWallMs");
  }

  lemma KeptAlike(a: Declared, b: Declared)
    ensures SameLimit(a, b) <==> Kept(a) == Kept(b)
  {
    forall d: Declared
      ensures forall n: nat :: IsLimit(d, n) <==> Kept(d) == Some(n)
    {}
  }

  lemma CanonicalInjective(a: Request, b: Request)
    requires DistinctKeys(a.params) && DistinctKeys(b.params)
    requires Canonical(a) == Canonical(b)
    ensures SameExecution(a, b)
  {
    var f, g := Canonical(a).fields, Canonical(b).fields;
    var recipe := f.rest.rest.rest.rest;
    assert recipe.value == CanonicalRecipe(a.recipe) == CanonicalRecipe(b.recipe);
    RecipeInjective(a.recipe, b.recipe);
    ReferencesInjective(a.references, b.references);
    ParamFieldsInjective(Listed(a.params), Listed(b.params));
    ParamsListedAlike(a.params, b.params);
  }

  lemma RecipeInjective(a: Recipe, b: Recipe)
    requires CanonicalRecipe(a) == CanonicalRecipe(b)
    ensures SameRecipe(a, b)
  {
    StringsInjective(a.toolFamilies, b.toolFamilies);
    LimitsInjective(a.maxTurns, a.maxWallMs, b.maxTurns, b.maxWallMs);
    KeptAlike(a.maxTurns, b.maxTurns);
    KeptAlike(a.maxWallMs, b.maxWallMs);
  }

  /**
   * Two requests have one canonical text exactly when they are the same execution:
   * params compared as maps, limits after dropping what would not count.
   */
  lemma OneTextPerExecution(a: Request, b: Request)
    requires DistinctKeys(a.params) && DistinctKeys(b.params)
    ensures CanonicalText(a) == CanonicalText(b) <==> SameExecution(a, b)
  {
    if CanonicalText(a) == CanonicalText(b) {
      PrintedInjective(Canonical(a), Canonical(b));
      CanonicalInjective(a, b);
    }
    if SameExecution(a, b) {
      ParamsListedAlike(a.params, b.params);
      KeptAlike(a.recipe.maxTurns, b.recipe.maxTurns);
      KeptAlike(a.recipe.maxWallMs, b.recipe.maxWallMs);
    }
  }

  /** And encoding that text as UTF-8 loses nothing, whatever the request's strings contain. */
  lemma TextIsWellFormed(r: Request)
    ensures WellFormed(CanonicalText(r))
  {
    PrintedIsWellFormed(Canonical(r));
  }
}
