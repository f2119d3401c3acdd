/** The quiz query controller: the five per-category listings, the
    aggregate listing, and the random-question handler. Every handler
    reads the store and fills in the response; none changes a collection. */
module Terra {
  import opened Quiz
  import opened DocumentStore
  import opened Http

  // ---------------------------------------------------------------------
  // Category dispatch
  // ---------------------------------------------------------------------

  /** The upper-case form of one character, as `String.prototype.toUpperCase`
      gives it, for every character whose upper-case form is pure ASCII:
      the letters a-z, dotless i, long s, sharp s and the Latin ligatures
      U+FB00-U+FB06. Every other character is kept as it is; for a non-ASCII
      character the real upper-case form also holds a non-ASCII character,
      so which of the five names matches is the same either way. */
  function UpperChar(ch: char): string {
    if 'a' <= ch <= 'z' then [(ch as int - 32) as char]
    else if ch == '\U{0131}' then "I"
    else if ch == '\U{017F}' then "S"
    else if ch == '\U{00DF}' then "SS"
    else if ch == '\U{FB00}' then "FF"
    else if ch == '\U{FB01}' then "FI"
    else if ch == '\U{FB02}' then "FL"
    else if ch == '\U{FB03}' then "FFI"
    else if ch == '\U{FB04}' then "FFL"
    else if ch == '\U{FB05}' || ch == '\U{FB06}' then "ST"
    else [ch]
  }

  function ToUpper(s: string): string {
    if s == [] then "" else UpperChar(s[0]) + ToUpper(s[1..])
  }

  /** The `switch (model.toUpperCase())`: the collection whose name equals
      the upper-cased parameter, if any. */
  function SelectCategory(name: string): (r: Option<Category>)
    ensures forall c: Category :: r == Some(c) <==> ToUpper(name) == Name(c)
  {
    var upper := ToUpper(name);
    if upper == "ASTER" then Some(ASTER)
    else if upper == "CERES" then Some(CERES)
    else if upper == "MODIS" then Some(MODIS)
    else if upper == "MOPITT" then Some(MOPITT)
    else if upper == "MISR" then Some(MISR)
    else None
  }

  /** A string made of upper- and lower-case ASCII letters upper-cases to
      its all-upper-case spelling. */
  lemma {:induction false} ToUpperIgnoresCase(s: string, t: string)
    requires |s| == |t|
    requires forall i :: 0 <= i < |t| ==> 'A' <= t[i] <= 'Z'
    requires forall i :: 0 <= i < |t| ==> s[i] == t[i] || s[i] as int == t[i] as int + 32
    ensures ToUpper(s) == t
  {
    if s != [] {
      ToUpperIgnoresCase(s[1..], t[1..]);
      assert UpperChar(s[0]) == [t[0]];
      assert t == [t[0]] + t[1..];
    }
  }

  lemma NameIsUpper(c: Category)
    ensures forall i :: 0 <= i < |Name(c)| ==> 'A' <= Name(c)[i] <= 'Z'
  {
  }

  /** Category matching ignores case: every spelling of a name that writes
      each letter in upper or lower case selects exactly that collection. */
  lemma SelectIgnoresCase(s: string, c: Category)
    requires |s| == |Name(c)|
    requires forall i :: 0 <= i < |s| ==> s[i] == Name(c)[i] || s[i] as int == Name(c)[i] as int + 32
    ensures SelectCategory(s) == Some(c)
  {
    NameIsUpper(c);
    ToUpperIgnoresCase(s, Name(c));
  }

  /** "Aster" selects ASTER. */
  lemma SelectAster()
    ensures SelectCategory("Aster") == Some(ASTER)
  {
    assert ToUpper("Aster") == "ASTER";
  }

  /** "landsat", which names no collection, selects nothing. */
  lemma SelectUnknown()
    ensures SelectCategory("landsat") == None
  {
    assert ToUpper("landsat") == "LANDSAT";
  }

  /** `toUpperCase` maps the dotless i to I, so "m\u0131sr" selects MISR. */
  lemma SelectDotlessI()
    ensures SelectCategory("m\U{0131}sr") == Some(MISR)
  {
    var dotless := "m\U{0131}sr";
    calc {
      ToUpper(dotless);
      UpperChar('m') + ToUpper("\U{0131}sr");
      "M" + (UpperChar('\U{0131}') + ToUpper("sr"));
      { ToUpperIgnoresCase("sr", "SR"); }
      "M" + ("I" + "SR");
    }
    assert "M" + ("I" + "SR") == "MISR";
  }

  // ---------------------------------------------------------------------
  // Random offset
  // ---------------------------------------------------------------------

  /** `Math.floor(Math.random() * count)` with `random` the value drawn from
      [0, 1), computed exactly. */
  function Offset(random: real, count: nat): (k: nat)
    requires 0.0 <= random < 1.0 && count > 0
    ensures k < count
  {
    var x := random * count as real;
    assert 0.0 <= x < count as real;
    x.Floor
  }

  /** Offset `k` is drawn exactly when `random` falls in
      [k / count, (k + 1) / count), an interval of width 1 / count: a uniform
      draw of `random` picks every record with the same probability. */
  lemma OffsetUniform(random: real, count: nat, k: nat)
    requires 0.0 <= random < 1.0 && count > 0 && k < count
    ensures Offset(random, count) == k <==>
      (k as real) / (count as real) <= random < ((k + 1) as real) / (count as real)
  {
    var n := count as real;
    var x := random * n;
    var lo, hi := (k as real) / n, ((k + 1) as real) / n;
    FloorIs(x, k);
    ScaleBound(k as real, random, n);
    ScaleBound((k + 1) as real, random, n);
    assert (k as real <= x) == (lo <= random) && (x < (k + 1) as real) == (random < hi);
  }

  /** `a <= r * n` exactly when `a / n <= r`, for a positive `n`. */
  lemma ScaleBound(a: real, r: real, n: real)
    requires n > 0.0
    ensures (a <= r * n) == (a / n <= r)
    ensures (r * n < a) == (r < a / n)
  {
    DivMul(a, n);
    ScaleOrder(a / n, r, n);
    ScaleOrder(r, a / n, n);
  }

  lemma FloorIs(x: real, k: int)
    ensures x.Floor == k <==> k as real <= x < (k + 1) as real
  {
  }

  lemma DivMul(a: real, n: real)
    requires n > 0.0
    ensures (a / n) * n == a
  {
  }

  /** Multiplying by a positive number keeps the order of two numbers. */
  lemma ScaleOrder(a: real, b: real, n: real)
    requires n > 0.0
    ensures a <= b <==> a * n <= b * n
    ensures a < b <==> a * n < b * n
  {
    assert b * n - a * n == (b - a) * n;
  }

  // ---------------------------------------------------------------------
  // Handlers
  // ---------------------------------------------------------------------

  /** `getASTERData` ... `getMISRData`: one handler, parameterised by the
      collection it reads. */
  method GetCategoryData(c: Category, store: Store, res: Response)
    requires store.Valid() && res.Pristine()
    modifies res, store`log
    ensures store.collections == old(store.collections)
    ensures store.log == old(store.log) + [FindAll(c)]
    ensures res.endCalls == 1 && res.headersSent && res.written == [] && res.headers == map[]
    ensures FindAll(c) !in store.failing ==>
      res.statusCode == 200 &&
      res.jsonBody == Some(CategoryData(true, |store.collections[c]|, store.collections[c]))
    ensures FindAll(c) in store.failing ==>
      res.statusCode == 500 &&
      res.jsonBody == Some(Failure(false, "Failed to fetch " + Name(c) + " data", Details(store.failing[FindAll(c)])))
  {
    var found := store.Find(c);
    match found
    case Returned(data) =>
      res.Status(200);
      res.Json(CategoryData(true, |data|, data));
    case Threw(e) =>
      res.Status(500);
      res.Json(Failure(false, "Failed to fetch " + Name(c) + " data", Details(e)));
  }

  /** The object literal of the aggregate reply, from the five results. */
  function DataObject(aster: seq<QuizRecord>, ceres: seq<QuizRecord>, modis: seq<QuizRecord>,
                      mopitt: seq<QuizRecord>, misr: seq<QuizRecord>): map<string, Listing> {
    map[
      "ASTER" := Listing(|aster|, aster),
      "CERES" := Listing(|ceres|, ceres),
      "MODIS" := Listing(|modis|, modis),
      "MOPITT" := Listing(|mopitt|, mopitt),
      "MISR" := Listing(|misr|, misr)]
  }

  /** The `data` object of the aggregate reply for the given collections. */
  function AllListings(collections: map<Category, seq<QuizRecord>>): (m: map<string, Listing>)
    requires forall c: Category :: c in collections
    ensures m.Keys == {"ASTER", "CERES", "MODIS", "MOPITT", "MISR"}
    ensures forall c: Category :: Name(c) in m && m[Name(c)].data == collections[c]
    ensures forall k :: k in m ==> m[k].count == |m[k].data|
  {
    DataObject(collections[ASTER], collections[CERES], collections[MODIS], collections[MOPITT], collections[MISR])
  }

  /** What the sequential reading of `Promise.all` rejects with: the error of
      the first failing `find` in the order of `cs`. */
  function FirstFault(failing: map<Call, Thrown>, cs: seq<Category>): (r: Option<Thrown>)
    ensures r.None? <==> forall i :: 0 <= i < |cs| ==> FindAll(cs[i]) !in failing
    ensures r.Some? ==> exists i :: (0 <= i < |cs| && FindAll(cs[i]) in failing &&
      r.value == failing[FindAll(cs[i])] &&
      forall j :: 0 <= j < i ==> FindAll(cs[j]) !in failing)
  {
    if cs == [] then None
    else if FindAll(cs[0]) in failing then Some(failing[FindAll(cs[0])])
    else
      var r := FirstFault(failing, cs[1..]);
      assert r.Some? ==> exists i :: (1 <= i < |cs| && FindAll(cs[i]) in failing &&
        r.value == failing[FindAll(cs[i])] && forall j :: 1 <= j < i ==> FindAll(cs[j]) !in failing) by {
        if r.Some? {
          var i :| 0 <= i < |cs[1..]| && FindAll(cs[1..][i]) in failing &&
            r.value == failing[FindAll(cs[1..][i])] && forall j :: 0 <= j < i ==> FindAll(cs[1..][j]) !in failing;
          assert forall j :: 1 <= j < i + 1 ==> cs[j] == cs[1..][j - 1];
        }
      }
      r
  }

  /** How `Promise.all` settles, read sequentially: with the error of the
      first call that threw, if any. */
  function FirstThrown<T>(rs: seq<Outcome<T>>): (r: Option<Thrown>)
    ensures r.None? <==> forall i :: 0 <= i < |rs| ==> rs[i].Returned?
  {
    if rs == [] then None
    else if rs[0].Threw? then Some(rs[0].thrown)
    else
      var r := FirstThrown(rs[1..]);
      assert r.None? ==> forall i :: 1 <= i < |rs| ==> rs[i] == rs[1..][i - 1];
      r
  }

  /** The outcomes of `find` on `cs`, one per category, settle with the
      first fault of `cs`. */
  lemma {:induction false} FirstThrownOfFinds(failing: map<Call, Thrown>, cs: seq<Category>, rs: seq<Outcome<seq<QuizRecord>>>)
    requires |rs| == |cs|
    requires forall i :: 0 <= i < |cs| ==> (rs[i].Threw? <==> FindAll(cs[i]) in failing)
    requires forall i :: 0 <= i < |cs| ==> rs[i].Threw? ==> rs[i].thrown == failing[FindAll(cs[i])]
    ensures FirstThrown(rs) == FirstFault(failing, cs)
  {
    if cs != [] {
      FirstThrownOfFinds(failing, cs[1..], rs[1..]);
    }
  }

  /** What the outcome of `find` on `c` is, for a store in that state. */
  predicate FoundAs(failing: map<Call, Thrown>, collections: map<Category, seq<QuizRecord>>, c: Category, r: Outcome<seq<QuizRecord>>)
    requires c in collections
  {
    r == if FindAll(c) in failing then Threw(failing[FindAll(c)]) else Returned(collections[c])
  }

  lemma FirstThrownOfFive(failing: map<Call, Thrown>, collections: map<Category, seq<QuizRecord>>, rs: seq<Outcome<seq<QuizRecord>>>)
    requires forall c: Category :: c in collections
    requires |rs| == 5
    requires forall i :: 0 <= i < 5 ==> FoundAs(failing, collections, AllCategories[i], rs[i])
    ensures FirstThrown(rs) == FirstFault(failing, AllCategories)
    ensures forall i :: 0 <= i < 5 && rs[i].Returned? ==> rs[i].value == collections[AllCategories[i]]
  {
    FirstThrownOfFinds(failing, AllCategories, rs);
  }

  /** The five `find` calls of the `Promise.all` in `getAllTerraData`, in
      array order; `results` holds their outcomes. */
  method FindEach(store: Store) returns (results: seq<Outcome<seq<QuizRecord>>>)
    requires store.Valid()
    modifies store`log
    ensures store.log == old(store.log) + [FindAll(ASTER), FindAll(CERES), FindAll(MODIS), FindAll(MOPITT), FindAll(MISR)]
    ensures |results| == 5
    ensures FirstThrown(results) == FirstFault(store.failing, AllCategories)
    ensures forall i :: 0 <= i < 5 && results[i].Returned? ==> results[i].value == store.collections[AllCategories[i]]
  {
    var aster := store.Find(ASTER);
    var ceres := store.Find(CERES);
    var modis := store.Find(MODIS);
    var mopitt := store.Find(MOPITT);
    var misr := store.Find(MISR);
    results := [aster, ceres, modis, mopitt, misr];
    assert FoundAs(store.failing, store.collections, ASTER, results[0]);
    assert FoundAs(store.failing, store.collections, CERES, results[1]);
    assert FoundAs(store.failing, store.collections, MODIS, results[2]);
    assert FoundAs(store.failing, store.collections, MOPITT, results[3]);
    assert FoundAs(store.failing, store.collections, MISR, results[4]);
    FirstThrownOfFive(store.failing, store.collections, results);
  }

  /** `getAllTerraData`: all five collections, or a 500 with no data at all
      when any read fails. */
  method GetAllTerraData(store: Store, res: Response)
    requires store.Valid() && res.Pristine()
    modifies res, store`log
    ensures store.collections == old(store.collections)
    ensures store.log == old(store.log) + [FindAll(ASTER), FindAll(CERES), FindAll(MODIS), FindAll(MOPITT), FindAll(MISR)]
    ensures res.endCalls == 1 && res.headersSent && res.written == [] && res.headers == map[]
    ensures FirstFault(store.failing, AllCategories).None? ==>
      res.statusCode == 200 && res.jsonBody == Some(AllData(true, AllListings(store.collections)))
    ensures FirstFault(store.failing, AllCategories).Some? ==>
      res.statusCode == 500 &&
      res.jsonBody == Some(Failure(false, "Failed to fetch Terra data", Details(FirstFault(store.failing, AllCategories).value)))
  {
    var results := FindEach(store);
    var fault := FirstThrown(results);
    if fault.Some? {
      res.Status(500);
      res.Json(Failure(false, "Failed to fetch Terra data", Details(fault.value)));
    } else {
      assert results[0].Returned? && results[1].Returned? && results[2].Returned? &&
        results[3].Returned? && results[4].Returned?;
      res.Status(200);
      res.Json(AllData(true, DataObject(results[0].value, results[1].value, results[2].value, results[3].value, results[4].value)));
    }
  }

  /** `getRandomQuestion`. `model` is the route parameter (None when it is
      missing) and `random` the value `Math.random()` returns. */
  method GetRandomQuestion(model: Option<string>, random: real, store: Store, res: Response)
    requires store.Valid() && res.Pristine()
    requires 0.0 <= random < 1.0
    modifies res, store`log
    ensures store.collections == old(store.collections)
    ensures res.endCalls == 1 && res.headersSent && res.written == [] && res.headers == map[]
    // a missing or empty parameter: 400, and the store is not asked
    ensures model.None? || model.value == "" ==>
      store.log == old(store.log) && res.statusCode == 400 &&
      res.jsonBody == Some(Failure(false, "Model parameter is required", "Please specify a model name in the URL"))
    // a name that is none of the five: 400, and the store is not asked
    ensures model.Some? && model.value != "" && SelectCategory(model.value).None? ==>
      store.log == old(store.log) && res.statusCode == 400 &&
      res.jsonBody == Some(Failure(false, "Invalid model name", "Model must be one of: ASTER, CERES, MODIS, MOPITT, MISR"))
    // a known name: only the selected collection is counted, then read
    ensures model.Some? && model.value != "" && SelectCategory(model.value).Some? ==>
      var c := SelectCategory(model.value).value;
      var records := store.collections[c];
      if Count(c) in store.failing then
        store.log == old(store.log) + [Count(c)] && res.statusCode == 500 &&
        res.jsonBody == Some(Failure(false, "Failed to fetch random question", Details(store.failing[Count(c)])))
      else if |records| == 0 then
        store.log == old(store.log) + [Count(c)] && res.statusCode == 404 &&
        res.jsonBody == Some(Failure(false, "No data found", "No questions found in " + model.value + " collection"))
      else
        var k := Offset(random, |records|);
        store.log == old(store.log) + [Count(c), FindOneAt(c, k)] &&
        if FindOneAt(c, k) in store.failing then
          res.statusCode == 500 &&
          res.jsonBody == Some(Failure(false, "Failed to fetch random question", Details(store.failing[FindOneAt(c, k)])))
        else
          res.statusCode == 200 && res.jsonBody == Some(RandomPick(true, Some(records[k])))
  {
    if model.None? || model.value == "" {
      res.Status(400);
      res.Json(Failure(false, "Model parameter is required", "Please specify a model name in the URL"));
      return;
    }
    var selected := SelectCategory(model.value);
    if selected.None? {
      res.Status(400);
      res.Json(Failure(false, "Invalid model name", "Model must be one of: ASTER, CERES, MODIS, MOPITT, MISR"));
      return;
    }
    var c := selected.value;
    var counted := store.CountDocuments(c);
    if counted.Threw? {
      res.Status(500);
      res.Json(Failure(false, "Failed to fetch random question", Details(counted.thrown)));
      return;
    }
    var count := counted.value;
    if count == 0 {
      res.Status(404);
      res.Json(Failure(false, "No data found", "No questions found in " + model.value + " collection"));
      return;
    }
    var k := Offset(random, count);
    var picked := store.FindOneSkip(c, k);
    if picked.Threw? {
      res.Status(500);
      res.Json(Failure(false, "Failed to fetch random question", Details(picked.thrown)));
      return;
    }
    res.Status(200);
    res.Json(RandomPick(true, picked.value));
  }
}
