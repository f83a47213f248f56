/** Placeholder substitution over JSON workflow templates. */
module Workflow {
  import opened Common
  import opened Paths

  datatype Json =
    | Null
    | Bool(b: bool)
    | Number(n: real)
    | Str(s: string)
    | Arr(items: seq<Json>)
    | Obj(members: seq<Member>)

  datatype Member = Member(key: string, value: Json)

  const PROMPT := "PROMPT_PLACEHOLDER"
  const INPUT_IMAGE := "INPUT_IMAGE_PLACEHOLDER"
  const FILENAME_PREFIX := "FILENAME_PREFIX_PLACEHOLDER"
  const SEED := "SEED_PLACEHOLDER"

  datatype Sub = Sub(needle: string, replacement: string)

  // ---------------------------- the passes ------------------------------

  /** The first entry whose needle is the whole string wins. */
  function Lookup(s: string, subs: seq<Sub>): string {
    if subs == [] then s
    else if s == subs[0].needle then subs[0].replacement
    else Lookup(s, subs[1..])
  }

  /** Replace every string leaf `s` by `leaf(s)`; keys and everything else stay. */
  function MapLeaves(v: Json, leaf: string -> Json): Json {
    match v
    case Str(s) => leaf(s)
    case Arr(items) => Arr(seq(|items|, i requires 0 <= i < |items| => MapLeaves(items[i], leaf)))
    case Obj(members) =>
      Obj(seq(|members|, i requires 0 <= i < |members| => Member(members[i].key, MapLeaves(members[i].value, leaf))))
    case _ => v
  }

  function LookupLeaf(subs: seq<Sub>): string -> Json { s => Str(Lookup(s, subs)) }

  function SeedLeaf(seed: real): string -> Json { s => if s == SEED then Number(seed) else Str(s) }

  method PatchPlaceholders(v: Json, subs: seq<Sub>) returns (r: Json)
    ensures r == MapLeaves(v, LookupLeaf(subs))
    decreases v
  {
    match v {
      case Str(s) =>
        var i := 0;
        while i < |subs| && s != subs[i].needle
          invariant 0 <= i <= |subs| && Lookup(s, subs) == Lookup(s, subs[i..])
        {
          i := i + 1;
        }
        r := if i < |subs| then Str(subs[i].replacement) else v;
      case Arr(items) =>
        var patched := items;
        for i := 0 to |items|
          invariant |patched| == |items|
          invariant forall k :: 0 <= k < i ==> patched[k] == MapLeaves(items[k], LookupLeaf(subs))
          invariant forall k :: i <= k < |items| ==> patched[k] == items[k]
        {
          var item := PatchPlaceholders(patched[i], subs);
          patched := patched[i := item];
        }
        r := Arr(patched);
      case Obj(members) =>
        var patched := members;
        for i := 0 to |members|
          invariant |patched| == |members|
          invariant forall k :: 0 <= k < i ==>
                      patched[k] == Member(members[k].key, MapLeaves(members[k].value, LookupLeaf(subs)))
          invariant forall k :: i <= k < |members| ==> patched[k] == members[k]
        {
          var value := PatchPlaceholders(patched[i].value, subs);
          patched := patched[i := Member(patched[i].key, value)];
        }
        r := Obj(patched);
      case _ => r := v;
    }
  }

  method PatchSeedPlaceholder(v: Json, seed: real) returns (r: Json)
    ensures r == MapLeaves(v, SeedLeaf(seed))
    decreases v
  {
    match v {
      case Str(s) => r := if s == SEED then Number(seed) else v;
      case Arr(items) =>
        var patched := items;
        for i := 0 to |items|
          invariant |patched| == |items|
          invariant forall k :: 0 <= k < i ==> patched[k] == MapLeaves(items[k], SeedLeaf(seed))
          invariant forall k :: i <= k < |items| ==> patched[k] == items[k]
        {
          var item := PatchSeedPlaceholder(patched[i], seed);
          patched := patched[i := item];
        }
        r := Arr(patched);
      case Obj(members) =>
        var patched := members;
        for i := 0 to |members|
          invariant |patched| == |members|
          invariant forall k :: 0 <= k < i ==>
                      patched[k] == Member(members[k].key, MapLeaves(members[k].value, SeedLeaf(seed)))
          invariant forall k :: i <= k < |members| ==> patched[k] == members[k]
        {
          var value := PatchSeedPlaceholder(patched[i].value, seed);
          patched := patched[i := Member(patched[i].key, value)];
        }
        r := Obj(patched);
      case _ => r := v;
    }
  }

  /** What one job supplies. */
  datatype Job = Job(prompt: string, image: string, id: string, seed: real)

  function SubsOf(j: Job): seq<Sub> {
    [Sub(PROMPT, j.prompt), Sub(INPUT_IMAGE, j.image), Sub(FILENAME_PREFIX, OutputPrefix(j.id))]
  }

  function Build(template: Json, j: Job): Json {
    MapLeaves(MapLeaves(template, LookupLeaf(SubsOf(j))), SeedLeaf(j.seed))
  }

  method BuildEditWorkflow(template: Json, j: Job) returns (r: Json)
    ensures r == Build(template, j)
  {
    r := PatchPlaceholders(template, SubsOf(j));
    r := PatchSeedPlaceholder(r, j.seed);
  }

  // ------------------- the simultaneous substitution --------------------

  /** Each token to its value, all at once. */
  function Token(s: string, j: Job): Json {
    if s == PROMPT then Str(j.prompt)
    else if s == INPUT_IMAGE then Str(j.image)
    else if s == FILENAME_PREFIX then Str(OutputPrefix(j.id))
    else if s == SEED then Number(j.seed)
    else Str(s)
  }

  function TokenLeaf(j: Job): string -> Json { s => Token(s, j) }

  /** The string leaves of a document (keys are not leaves). */
  function Strings(v: Json): set<string> {
    match v
    case Str(s) => {s}
    case Arr(items) => set i, s | 0 <= i < |items| && s in Strings(items[i]) :: s
    case Obj(members) => set i, s | 0 <= i < |members| && s in Strings(members[i].value) :: s
    case _ => {}
  }

  /** Two leaf maps agree on a document exactly when they agree on its strings. */
  lemma {:induction false} MapsAgree(v: Json, f: string -> Json, g: string -> Json)
    ensures MapLeaves(v, f) == MapLeaves(v, g) <==> forall s :: s in Strings(v) ==> f(s) == g(s)
  {
    match v
    case Str(s) =>
    case Arr(items) =>
      forall i | 0 <= i < |items|
        ensures MapLeaves(items[i], f) == MapLeaves(items[i], g) <==>
                  forall s :: s in Strings(items[i]) ==> f(s) == g(s)
      {
        MapsAgree(items[i], f, g);
      }
      var a, b := MapLeaves(v, f).items, MapLeaves(v, g).items;
      assert forall i :: 0 <= i < |items| ==> a[i] == MapLeaves(items[i], f) && b[i] == MapLeaves(items[i], g);
      if forall s :: s in Strings(v) ==> f(s) == g(s) {
        assert forall i, s :: 0 <= i < |items| && s in Strings(items[i]) ==> s in Strings(v);
        assert a == b;
      } else {
        var s :| s in Strings(v) && f(s) != g(s);
        var i :| 0 <= i < |items| && s in Strings(items[i]);
        assert a[i] != b[i];
      }
    case Obj(members) =>
      forall i | 0 <= i < |members|
        ensures MapLeaves(members[i].value, f) == MapLeaves(members[i].value, g) <==>
                  forall s :: s in Strings(members[i].value) ==> f(s) == g(s)
      {
        MapsAgree(members[i].value, f, g);
      }
      var a, b := MapLeaves(v, f).members, MapLeaves(v, g).members;
      assert forall i :: 0 <= i < |members| ==>
        a[i].value == MapLeaves(members[i].value, f) && b[i].value == MapLeaves(members[i].value, g);
      if forall s :: s in Strings(v) ==> f(s) == g(s) {
        assert forall i, s :: 0 <= i < |members| && s in Strings(members[i].value) ==> s in Strings(v);
        assert a == b;
      } else {
        var s :| s in Strings(v) && f(s) != g(s);
        var i :| 0 <= i < |members| && s in Strings(members[i].value);
        assert a[i] != b[i];
      }
    case _ =>
  }

  function Then(f: string -> Json, g: string -> Json): string -> Json { s => MapLeaves(f(s), g) }

  /** Two passes are one pass with the composed leaf map. */
  lemma {:induction false} PassesCompose(v: Json, f: string -> Json, g: string -> Json)
    ensures MapLeaves(MapLeaves(v, f), g) == MapLeaves(v, Then(f, g))
  {
    match v
    case Arr(items) =>
      forall i | 0 <= i < |items| ensures MapLeaves(MapLeaves(items[i], f), g) == MapLeaves(items[i], Then(f, g)) {
        PassesCompose(items[i], f, g);
      }
    case Obj(members) =>
      forall i | 0 <= i < |members|
        ensures MapLeaves(MapLeaves(members[i].value, f), g) == MapLeaves(members[i].value, Then(f, g))
      {
        PassesCompose(members[i].value, f, g);
      }
    case _ =>
  }

  // ------------------------------ results -------------------------------

  predicate IsToken(s: string) { s == PROMPT || s == INPUT_IMAGE || s == FILENAME_PREFIX || s == SEED }

  /** Neither supplied text that the template uses is the seed token. */
  predicate NoSeedText(template: Json, j: Job) {
    && !(PROMPT in Strings(template) && j.prompt == SEED)
    && !(INPUT_IMAGE in Strings(template) && j.image == SEED)
  }

  /** The text placed for `s`, if any, is not the seed token. */
  predicate PlacesNoSeed(s: string, j: Job) {
    !(s == PROMPT && j.prompt == SEED) && !(s == INPUT_IMAGE && j.image == SEED)
  }

  function BuildLeaf(s: string, j: Job): Json { MapLeaves(Str(Lookup(s, SubsOf(j))), SeedLeaf(j.seed)) }

  lemma BuildLeafIs(s: string, j: Job)
    ensures Lookup(s, SubsOf(j)) ==
      if s == PROMPT then j.prompt else if s == INPUT_IMAGE then j.image
      else if s == FILENAME_PREFIX then OutputPrefix(j.id) else s
    ensures BuildLeaf(s, j) == Token(s, j) <==> PlacesNoSeed(s, j)
  {
    var subs := SubsOf(j);
    assert subs[1..][0] == subs[1] && subs[1..][1..] == subs[2..] && subs[2..][0] == subs[2] && subs[2..][1..] == [];
    assert Lookup(s, subs[2..]) == if s == FILENAME_PREFIX then OutputPrefix(j.id) else s;
    assert Lookup(s, subs[1..]) == if s == INPUT_IMAGE then j.image else Lookup(s, subs[2..]);
    assert PROMPT[0] == 'P' && INPUT_IMAGE[0] == 'I' && FILENAME_PREFIX[0] == 'F' && SEED[0] == 'S';
    assert OutputPrefix(j.id)[0] == 'z';
  }

  lemma BuildIsOneMap(template: Json, j: Job)
    ensures Build(template, j) == MapLeaves(template, s => BuildLeaf(s, j))
  {
    PassesCompose(template, LookupLeaf(SubsOf(j)), SeedLeaf(j.seed));
    MapsAgree(template, Then(LookupLeaf(SubsOf(j)), SeedLeaf(j.seed)), s => BuildLeaf(s, j));
  }

  /** The two passes equal one simultaneous substitution exactly when no supplied text they place is the seed token. */
  lemma BuildIsSimultaneous(template: Json, j: Job)
    ensures Build(template, j) == MapLeaves(template, TokenLeaf(j)) <==> NoSeedText(template, j)
  {
    BuildIsOneMap(template, j);
    forall s ensures BuildLeaf(s, j) == Token(s, j) <==> PlacesNoSeed(s, j) { BuildLeafIs(s, j); }
    MapsAgree(template, s => BuildLeaf(s, j), TokenLeaf(j));
  }

  /** A prompt that reads like the seed token is not kept as text. */
  lemma SeedTextBecomesANumber(image: string, id: string, seed: real)
    ensures var j := Job(SEED, image, id, seed);
      Build(Str(PROMPT), j) == Number(seed) && MapLeaves(Str(PROMPT), TokenLeaf(j)) == Str(SEED)
  {
    BuildLeafIs(PROMPT, Job(SEED, image, id, seed));
  }

  lemma SwappedLeafIs(s: string, j: Job)
    ensures MapLeaves(SeedLeaf(j.seed)(s), LookupLeaf(SubsOf(j))) == Token(s, j)
  {
    BuildLeafIs(s, j);
    assert PROMPT[0] == 'P' && INPUT_IMAGE[0] == 'I' && FILENAME_PREFIX[0] == 'F' && SEED[0] == 'S';
    if s == SEED {
      assert SeedLeaf(j.seed)(s) == Number(j.seed);
    } else {
      assert SeedLeaf(j.seed)(s) == Str(s);
    }
  }

  /** Patching the seed first is always the simultaneous substitution, so the passes commute in the same cases. */
  lemma PassesCommute(template: Json, j: Job)
    ensures var swapped := MapLeaves(MapLeaves(template, SeedLeaf(j.seed)), LookupLeaf(SubsOf(j)));
      && swapped == MapLeaves(template, TokenLeaf(j))
      && (swapped == Build(template, j) <==> NoSeedText(template, j))
  {
    var swap := Then(SeedLeaf(j.seed), LookupLeaf(SubsOf(j)));
    PassesCompose(template, SeedLeaf(j.seed), LookupLeaf(SubsOf(j)));
    forall s ensures swap(s) == Token(s, j) { SwappedLeafIs(s, j); }
    MapsAgree(template, swap, TokenLeaf(j));
    BuildIsSimultaneous(template, j);
  }

  /** The strings of a mapped document are those its leaves were mapped to. */
  lemma {:induction false} StringsOfMap(v: Json, f: string -> Json, x: string)
    ensures x in Strings(MapLeaves(v, f)) <==> exists s :: s in Strings(v) && x in Strings(f(s))
  {
    match v
    case Arr(items) =>
      var a := MapLeaves(v, f).items;
      forall i | 0 <= i < |items|
        ensures x in Strings(a[i]) <==> exists s :: s in Strings(items[i]) && x in Strings(f(s))
      {
        StringsOfMap(items[i], f, x);
      }
      if s :| s in Strings(v) && x in Strings(f(s)) {
        var i :| 0 <= i < |items| && s in Strings(items[i]);
        assert x in Strings(a[i]);
      }
    case Obj(members) =>
      var a := MapLeaves(v, f).members;
      forall i | 0 <= i < |members|
        ensures x in Strings(a[i].value) <==> exists s :: s in Strings(members[i].value) && x in Strings(f(s))
      {
        StringsOfMap(members[i].value, f, x);
      }
      if s :| s in Strings(v) && x in Strings(f(s)) {
        var i :| 0 <= i < |members| && s in Strings(members[i].value);
        assert x in Strings(a[i].value);
      }
    case Str(s) => assert s in Strings(v);
    case _ =>
  }

  /** What a job supplies for a token the template uses, when it is text the second pass leaves alone. */
  predicate Places(template: Json, j: Job, x: string) {
    || (PROMPT in Strings(template) && x == j.prompt && x != SEED)
    || (INPUT_IMAGE in Strings(template) && x == j.image && x != SEED)
  }

  lemma TokensInBuild(template: Json, j: Job, x: string)
    requires IsToken(x)
    ensures x in Strings(Build(template, j)) <==> Places(template, j, x)
  {
    BuildIsOneMap(template, j);
    StringsOfMap(template, s => BuildLeaf(s, j), x);
    forall s ensures x in Strings(BuildLeaf(s, j)) <==> x != SEED && x == Lookup(s, SubsOf(j)) {}
    forall s ensures x in Strings(BuildLeaf(s, j)) ==> s == PROMPT || s == INPUT_IMAGE { BuildLeafIs(s, j); }
    BuildLeafIs(PROMPT, j);
    BuildLeafIs(INPUT_IMAGE, j);
  }

  /** No placeholder survives exactly when no text placed by the job is itself one of the other three tokens. */
  lemma NoPlaceholderSurvives(template: Json, j: Job)
    ensures (forall x :: IsToken(x) ==> x !in Strings(Build(template, j)))
      <==> (forall x :: IsToken(x) ==> !Places(template, j, x))
  {
    forall x | IsToken(x) ensures x in Strings(Build(template, j)) <==> Places(template, j, x) {
      TokensInBuild(template, j, x);
    }
  }

  /** A second build would replace the string `x` by something else. */
  predicate Restless(x: string, j: Job) {
    || (x == PROMPT && j.prompt != PROMPT) || (x == INPUT_IMAGE && j.image != INPUT_IMAGE)
    || x == FILENAME_PREFIX || x == SEED
  }

  lemma {:induction false} IdentityMap(v: Json)
    ensures MapLeaves(v, s => Str(s)) == v
  {
    match v
    case Arr(items) =>
      forall i | 0 <= i < |items| ensures MapLeaves(items[i], s => Str(s)) == items[i] { IdentityMap(items[i]); }
    case Obj(members) =>
      forall i | 0 <= i < |members| ensures MapLeaves(members[i].value, s => Str(s)) == members[i].value {
        IdentityMap(members[i].value);
      }
    case _ =>
  }

  lemma LeafStays(x: string, j: Job)
    ensures BuildLeaf(x, j) == Str(x) <==> !Restless(x, j)
  {
    BuildLeafIs(x, j);
    var y := Lookup(x, SubsOf(j));
    assert BuildLeaf(x, j) == if y == SEED then Number(j.seed) else Str(y);
    assert PROMPT[0] == 'P' && INPUT_IMAGE[0] == 'I' && FILENAME_PREFIX[0] == 'F' && SEED[0] == 'S';
    assert OutputPrefix(j.id)[0] == 'z';
  }

  /** The documents a build leaves alone. */
  lemma BuildFixes(v: Json, j: Job)
    ensures Build(v, j) == v <==> forall x :: x in Strings(v) ==> !Restless(x, j)
  {
    BuildIsOneMap(v, j);
    IdentityMap(v);
    MapsAgree(v, s => BuildLeaf(s, j), s => Str(s));
    forall x ensures BuildLeaf(x, j) == Str(x) <==> !Restless(x, j) { LeafStays(x, j); }
  }

  /** Building twice changes nothing exactly when the job places no text that a second build would replace. */
  lemma BuildIsIdempotent(template: Json, j: Job)
    ensures Build(Build(template, j), j) == Build(template, j)
      <==> forall x :: IsToken(x) && Restless(x, j) ==> !Places(template, j, x)
  {
    var once := Build(template, j);
    BuildFixes(once, j);
    forall x | IsToken(x) ensures x in Strings(once) <==> Places(template, j, x) { TokensInBuild(template, j, x); }
  }

  // ------------------------- shape and paths ----------------------------

  datatype Step = Index(i: nat) | Field(i: nat)

  /** The value at a path: array positions, and member positions (so key order is part of the path). */
  function At(v: Json, path: seq<Step>): Option<Json>
    decreases |path|
  {
    if path == [] then Some(v)
    else if path[0].Index? && v.Arr? && path[0].i < |v.items| then At(v.items[path[0].i], path[1..])
    else if path[0].Field? && v.Obj? && path[0].i < |v.members| then At(v.members[path[0].i].value, path[1..])
    else None
  }

  /** The two documents differ at most in what stands at their scalar leaves; keys are equal. */
  predicate SameNode(v: Json, w: Json) {
    match v
    case Arr(items) => w.Arr? && |w.items| == |items|
    case Obj(members) =>
      w.Obj? && |w.members| == |members| && forall i :: 0 <= i < |members| ==> w.members[i].key == members[i].key
    case Str(_) => w.Str? || w.Number?
    case _ => w == v
  }

  /**
   The built workflow has the template's shape at every path: same paths, same keys, same non-string
   leaves; and when no placed text is the seed token, each string leaf holds its token's value.
   */
  lemma {:induction false} BuildAtPath(template: Json, j: Job, path: seq<Step>)
    ensures var t, b := At(template, path), At(Build(template, j), path);
      && (t.Some? <==> b.Some?)
      && (t.Some? ==> b.value == Build(t.value, j) && SameNode(t.value, b.value))
      && (t.Some? && t.value.Str? && NoSeedText(t.value, j) ==> b.value == Token(t.value.s, j))
    decreases |path|
  {
    if path == [] {
      if template.Str? { BuildIsSimultaneous(template, j); }
    } else if path[0].Index? && template.Arr? && path[0].i < |template.items| {
      assert Build(template, j).items[path[0].i] == Build(template.items[path[0].i], j);
      BuildAtPath(template.items[path[0].i], j, path[1..]);
    } else if path[0].Field? && template.Obj? && path[0].i < |template.members| {
      assert Build(template, j).members[path[0].i].value == Build(template.members[path[0].i].value, j);
      BuildAtPath(template.members[path[0].i].value, j, path[1..]);
    }
  }

  lemma BuildOfString(s: string, j: Job)
    ensures s == "SEED_PLACEHOLDER" ==> Build(Str(s), j) == Number(j.seed)
    ensures s == "FILENAME_PREFIX_PLACEHOLDER" ==> Build(Str(s), j) == Str("zun_" + j.id)
    ensures s == "PROMPT_PLACEHOLDER" ==>
      Build(Str(s), j) == if j.prompt == "SEED_PLACEHOLDER" then Number(j.seed) else Str(j.prompt)
    ensures s == "INPUT_IMAGE_PLACEHOLDER" ==>
      Build(Str(s), j) == if j.image == "SEED_PLACEHOLDER" then Number(j.seed) else Str(j.image)
    ensures s !in {"SEED_PLACEHOLDER", "FILENAME_PREFIX_PLACEHOLDER", "PROMPT_PLACEHOLDER", "INPUT_IMAGE_PLACEHOLDER"}
      ==> Build(Str(s), j) == Str(s)
  {
    BuildIsOneMap(Str(s), j);
    BuildLeafIs(s, j);
    assert PROMPT[0] == 'P' && INPUT_IMAGE[0] == 'I' && FILENAME_PREFIX[0] == 'F' && SEED[0] == 'S';
    assert OutputPrefix(j.id)[0] == 'z';
  }

  /** What a build puts wherever the template has a string. */
  lemma StringAtPath(template: Json, j: Job, path: seq<Step>, s: string)
    requires At(template, path) == Some(Str(s))
    ensures At(Build(template, j), path).Some?
    ensures var built := At(Build(template, j), path).value;
      && (s == "SEED_PLACEHOLDER" ==> built == Number(j.seed))
      && (s == "FILENAME_PREFIX_PLACEHOLDER" ==> built == Str("zun_" + j.id))
      && (s == "PROMPT_PLACEHOLDER" ==>
           built == if j.prompt == "SEED_PLACEHOLDER" then Number(j.seed) else Str(j.prompt))
      && (s == "INPUT_IMAGE_PLACEHOLDER" ==>
           built == if j.image == "SEED_PLACEHOLDER" then Number(j.seed) else Str(j.image))
      && (s !in {"SEED_PLACEHOLDER", "FILENAME_PREFIX_PLACEHOLDER", "PROMPT_PLACEHOLDER", "INPUT_IMAGE_PLACEHOLDER"}
          ==> built == Str(s))
  {
    BuildAtPath(template, j, path);
    BuildOfString(s, j);
  }
}
