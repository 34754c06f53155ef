/** The Ollama provider (app/services/providers/ollama_provider.py): the size heuristic
    that ranks model names, the cached model listing read from `/api/tags`, the choice
    of a default model, and chat generation (plain and streaming) against `/api/chat`
    with its error classification. HTTP exchanges are parameters: each operation receives
    the outcome the server produced, and returns, besides its result, the request body it
    sent. */
module Ollama {
  import opened Wrappers
  import opened Strings
  import opened Sorting
  import opened ProviderBase

  // ===========================================================================
  // _estimate_model_size

  /** The end of the run of decimal digits that starts at `i`. */
  function RunEnd(s: string, i: nat): (j: nat)
    requires i <= |s|
    ensures i <= j <= |s|
    ensures forall k :: i <= k < j ==> IsDigit(s[k])
    ensures j == |s| || !IsDigit(s[j])
    decreases |s| - i
  {
    if i < |s| && IsDigit(s[i]) then RunEnd(s, i + 1) else i
  }

  /** `(\d+)b` matches at `i`. A `b` cannot follow a proper prefix of a digit run, so
      the group is always the whole run. */
  predicate TokenAt(s: string, i: nat) {
    i < |s| && IsDigit(s[i]) && RunEnd(s, i) < |s| && s[RunEnd(s, i)] == 'b'
  }

  function TokenValue(s: string, i: nat): nat
    requires TokenAt(s, i)
  {
    DigitsValue(s[i..RunEnd(s, i)])
  }

  /** The three patterns: `:(\d+)b`, `-(\d+)b` and `(\d+)b`. */
  predicate PatternAt(s: string, marker: Option<char>, i: nat) {
    match marker
    case None => TokenAt(s, i)
    case Some(c) => i < |s| && s[i] == c && TokenAt(s, i + 1)
  }

  /** Where the captured digits start when the pattern matches at `i`. */
  function GroupStart(marker: Option<char>, i: nat): nat {
    if marker.Some? then i + 1 else i
  }

  /** The leftmost match at or after `i` (`re.search`). */
  function SearchFrom(s: string, marker: Option<char>, i: nat): (r: Option<nat>)
    requires i <= |s|
    ensures r.Some? ==> i <= r.value < |s| && PatternAt(s, marker, r.value)
    ensures r.Some? ==> forall j :: i <= j < r.value ==> !PatternAt(s, marker, j)
    ensures r.None? ==> forall j :: i <= j ==> !PatternAt(s, marker, j)
    decreases |s| - i
  {
    if i == |s| then None
    else if PatternAt(s, marker, i) then Some(i)
    else SearchFrom(s, marker, i + 1)
  }

  /** `int(re.search(pattern, s).group(1))`, or `None` when nothing matches. */
  function SearchSize(s: string, marker: Option<char>): Option<nat> {
    match SearchFrom(s, marker, 0)
    case None => None
    case Some(i) => Some(TokenValue(s, GroupStart(marker, i)))
  }

  predicate ContainsAny(s: string, keys: seq<string>) {
    exists k :: 0 <= k < |keys| && Contains(s, keys[k])
  }

  const UnknownSize: nat := 50

  /** `_estimate_model_size`: the estimated parameter count, in billions, read from the
      lower-cased name. */
  function EstimateModelSize(name: string): nat {
    var lower := Lower(name);
    var colon := SearchSize(lower, Some(':'));
    var dash := SearchSize(lower, Some('-'));
    var bare := SearchSize(lower, None);
    if colon.Some? then colon.value
    else if dash.Some? then dash.value
    else if bare.Some? then bare.value
    else if ContainsAny(lower, ["1b", "1.5b", "2b", "3b"]) then 1
    else if ContainsAny(lower, ["7b", "8b"]) then 7
    else if ContainsAny(lower, ["13b", "14b"]) then 14
    else if ContainsAny(lower, ["32b", "34b"]) then 32
    else if ContainsAny(lower, ["70b", "72b"]) then 70
    else UnknownSize
  }

  /** The estimate without the keyword buckets: the first pattern that matches, else 50. */
  function PatternEstimate(lower: string): nat {
    var colon := SearchSize(lower, Some(':'));
    var dash := SearchSize(lower, Some('-'));
    var bare := SearchSize(lower, None);
    if colon.Some? then colon.value
    else if dash.Some? then dash.value
    else if bare.Some? then bare.value
    else UnknownSize
  }

  /** A keyword ending in a digit and `b` always gives the bare pattern a match. */
  lemma {:induction false} KeywordGivesToken(s: string, kw: string)
    requires |kw| >= 2 && IsDigit(kw[|kw| - 2]) && kw[|kw| - 1] == 'b'
    requires Contains(s, kw)
    ensures SearchSize(s, None).Some?
  {
    var p := IndexOf(s, kw).value;
    var q := p + |kw| - 2;
    assert s[p..p + |kw|] == kw;
    assert s[q] == kw[|kw| - 2] && s[q + 1] == 'b';
    assert RunEnd(s, q + 1) == q + 1;
    assert RunEnd(s, q) == q + 1;
    assert PatternAt(s, None, q);
  }

  /** Without a bare-pattern match, no keyword ending in a digit and `b` occurs. */
  lemma {:induction false} NoKeywordWithoutToken(s: string, keys: seq<string>)
    requires forall k :: 0 <= k < |keys| ==>
      |keys[k]| >= 2 && IsDigit(keys[k][|keys[k]| - 2]) && keys[k][|keys[k]| - 1] == 'b'
    requires SearchSize(s, None).None?
    ensures !ContainsAny(s, keys)
  {
    forall k | 0 <= k < |keys| ensures !Contains(s, keys[k]) {
      if Contains(s, keys[k]) { KeywordGivesToken(s, keys[k]); }
    }
  }

  /** The keyword buckets never decide: every keyword ends in a digit followed by `b`, so
      the bare pattern has already matched whenever one of them occurs. The estimate is
      therefore the first matching pattern's number, or 50. */
  lemma {:induction false} KeywordBucketsUnreachable(name: string)
    ensures EstimateModelSize(name) == PatternEstimate(Lower(name))
  {
    var lower := Lower(name);
    if SearchSize(lower, None).None? {
      NoKeywordWithoutToken(lower, ["1b", "1.5b", "2b", "3b"]);
      NoKeywordWithoutToken(lower, ["7b", "8b"]);
      NoKeywordWithoutToken(lower, ["13b", "14b"]);
      NoKeywordWithoutToken(lower, ["32b", "34b"]);
      NoKeywordWithoutToken(lower, ["70b", "72b"]);
    }
  }

  /** The estimate is either 50 or the number written immediately before some `b` in
      the lower-cased name; it is 50 exactly when no digit run is followed by `b`. */
  lemma {:induction false} EstimateReadFromName(name: string)
    ensures var lower := Lower(name);
      || (EstimateModelSize(name) == UnknownSize && forall i :: !TokenAt(lower, i))
      || (exists i :: TokenAt(lower, i) && TokenValue(lower, i) == EstimateModelSize(name))
  {
    KeywordBucketsUnreachable(name);
    var lower := Lower(name);
    if SearchSize(lower, Some(':')).Some? {
      var i := SearchFrom(lower, Some(':'), 0).value;
      assert TokenAt(lower, i + 1);
    } else if SearchSize(lower, Some('-')).Some? {
      var i := SearchFrom(lower, Some('-'), 0).value;
      assert TokenAt(lower, i + 1);
    } else if SearchSize(lower, None).Some? {
      var i := SearchFrom(lower, None, 0).value;
      assert TokenAt(lower, i);
    } else {
      forall i: nat ensures !TokenAt(lower, i) {
        assert !PatternAt(lower, None, i);
      }
    }
  }

  lemma {:induction false} RunEndAt(s: string, i: nat, k: nat)
    requires i <= k < |s|
    requires forall j :: i <= j < k ==> IsDigit(s[j])
    requires !IsDigit(s[k])
    ensures RunEnd(s, i) == k
  {
  }

  lemma {:induction false} SearchFirst(s: string, marker: Option<char>, i: nat)
    requires i < |s| && PatternAt(s, marker, i)
    requires forall j :: 0 <= j < i ==> !PatternAt(s, marker, j)
    ensures SearchFrom(s, marker, 0) == Some(i)
  {
  }

  lemma {:induction false} SearchNone(s: string, marker: Option<char>)
    requires forall j :: 0 <= j < |s| ==> !PatternAt(s, marker, j)
    ensures SearchFrom(s, marker, 0) == None
  {
  }

  /** The first colon, followed by digits and `b`, gives the size. */
  lemma {:induction false} ColonSize(s: string, c: nat, e: nat)
    requires c + 1 < e < |s|
    requires s[c] == ':' && forall j :: 0 <= j < c ==> s[j] != ':'
    requires (forall j :: c + 1 <= j < e ==> IsDigit(s[j])) && s[e] == 'b'
    ensures SearchSize(s, Some(':')) == Some(DigitsValue(s[c + 1..e]))
  {
    RunEndAt(s, c + 1, e);
    SearchFirst(s, Some(':'), c);
  }

  lemma {:induction false} EstimateByColon(name: string)
    requires SearchSize(Lower(name), Some(':')).Some?
    ensures EstimateModelSize(name) == SearchSize(Lower(name), Some(':')).value
  {
  }

  lemma {:induction false} EstimateByBare(name: string)
    requires SearchSize(Lower(name), Some(':')).None? && SearchSize(Lower(name), Some('-')).None?
    requires SearchSize(Lower(name), None).Some?
    ensures EstimateModelSize(name) == SearchSize(Lower(name), None).value
  {
  }

  lemma {:induction false} LowerCharFixes(c: char)
    ensures LowerChar(c) == ':' <==> c == ':'
    ensures IsDigit(LowerChar(c)) <==> IsDigit(c)
    ensures IsDigit(c) || c == ':' || c == '.' || c == 'b' ==> LowerChar(c) == c
  {
  }

  lemma {:induction false} TaggedSearch(family: string, digits: string, variant: string)
    requires ':' !in family
    requires |digits| > 0 && AllDigits(digits)
    ensures SearchSize(Lower(family + ([':'] + digits + ['b'] + variant)), Some(':'))
         == Some(DigitsValue(digits))
  {
    var tail := [':'] + digits + ['b'] + variant;
    var name := family + tail;
    var lower := Lower(name);
    var c := |family|;
    var e := c + 1 + |digits|;
    forall j | 0 <= j < c ensures lower[j] != ':' {
      assert name[j] == family[j] && family[j] in family;
      LowerCharFixes(name[j]);
    }
    forall j | c <= j <= e ensures lower[j] == name[j] && name[j] == tail[j - c] {
      LowerCharFixes(name[j]);
    }
    assert lower[c + 1..e] == digits;
    ColonSize(lower, c, e);
  }

  /** An Ollama tag `family:<n>b...` is estimated at `n`, whatever the family and the
      variant after the `b` contain, provided the family has no colon. */
  lemma {:induction false} TaggedSize(family: string, digits: string, variant: string)
    requires ':' !in family
    requires |digits| > 0 && AllDigits(digits)
    ensures EstimateModelSize(family + ([':'] + digits + ['b'] + variant)) == DigitsValue(digits)
  {
    TaggedSearch(family, digits, variant);
    EstimateByColon(family + ([':'] + digits + ['b'] + variant));
  }

  /** `f:<whole>.<frac>b`, a tag whose size has a fractional part. */
  function FractionalTag(f: string, whole: string, frac: string): string {
    f + ([':'] + whole + ['.'] + frac + ['b'])
  }

  lemma {:induction false} TagShape(f: string, whole: string, frac: string)
    requires AllDigits(whole) && AllDigits(frac)
    ensures var s := FractionalTag(f, whole, frac);
      var c := |f|;
      var w := c + 1 + |whole|;
      var e := w + 1 + |frac|;
      && |s| == e + 1
      && (forall j :: 0 <= j < c ==> s[j] == f[j])
      && s[c] == ':' && s[w] == '.' && s[e] == 'b'
      && (forall j :: c < j < w ==> IsDigit(s[j]))
      && (forall j :: w < j < e ==> IsDigit(s[j]))
      && s[w + 1..e] == frac
  {
    var tail := [':'] + whole + ['.'] + frac + ['b'];
    var s := f + tail;
    var c := |f|;
    var w := c + 1 + |whole|;
    var e := w + 1 + |frac|;
    forall j | c < j < w ensures s[j] == whole[j - c - 1] {
      assert s[j] == tail[j - c];
    }
    forall j | w < j < e ensures s[j] == frac[j - w - 1] {
      assert s[j] == tail[j - c];
    }
    assert s[w + 1..e] == frac;
  }

  /** `s` has no digit before `c`, digits strictly between `c` and a point at `w`, and
      the digits `frac` between the point and a `b` at `e`. */
  predicate PointShape(s: string, c: nat, w: nat, e: nat, frac: string) {
    && c < w < e < |s| && s[w + 1..e] == frac
    && (forall j :: 0 <= j < c ==> !IsDigit(s[j]))
    && !IsDigit(s[c]) && s[w] == '.' && s[e] == 'b'
    && (forall j :: c < j < w ==> IsDigit(s[j]))
    && w + 1 < e && (forall j :: w < j < e ==> IsDigit(s[j]))
  }

  /** In a string shaped like a fractional tag, `(\d+)b` first matches at the
      fraction. */
  lemma {:induction false} BareAfterPoint(s: string, c: nat, w: nat, e: nat, frac: string)
    requires PointShape(s, c, w, e, frac)
    ensures SearchSize(s, None) == Some(DigitsValue(frac))
  {
    forall j | 0 <= j < w + 1 ensures !PatternAt(s, None, j) {
      if c < j < w { RunEndAt(s, j, w); }
    }
    RunEndAt(s, w + 1, e);
    SearchFirst(s, None, w + 1);
  }

  /** In the same shape, neither `:(\d+)b` nor `-(\d+)b` matches: the only colon is
      followed by the whole part and a point, and no dash is followed by a digit. */
  lemma {:induction false} NoMarkedMatch(s: string, c: nat, w: nat)
    requires c < w < |s|
    requires forall j :: 0 <= j < c ==> s[j] != ':' && !IsDigit(s[j])
    requires s[c] == ':' && s[w] == '.'
    requires forall j :: c < j < w ==> IsDigit(s[j])
    requires forall j :: w < j < |s| ==> s[j] != ':' && s[j] != '-'
    ensures SearchSize(s, Some(':')).None? && SearchSize(s, Some('-')).None?
  {
    forall j | 0 <= j < |s| ensures !PatternAt(s, Some(':'), j) {
      if j == c { RunEndAt(s, c + 1, w); }
    }
    SearchNone(s, Some(':'));
    forall j | 0 <= j < |s| ensures !PatternAt(s, Some('-'), j) {
    }
    SearchNone(s, Some('-'));
  }

  /** A fractional size is read from the digits after the point: in a lower-case
      `family:<w>.<f>b` whose family has no digits and no colon, neither `:(\d+)b` nor
      `-(\d+)b` matches and `(\d+)b` first matches at `<f>`. */
  lemma {:induction false} FractionalPatternEstimate(f: string, whole: string, frac: string)
    requires forall j :: 0 <= j < |f| ==> f[j] != ':' && !IsDigit(f[j])
    requires |whole| > 0 && AllDigits(whole) && |frac| > 0 && AllDigits(frac)
    ensures PatternEstimate(FractionalTag(f, whole, frac)) == DigitsValue(frac)
  {
    FractionalNoMarked(f, whole, frac);
    BareShape(f, whole, frac);
    BareAfterPoint(FractionalTag(f, whole, frac), |f|, |f| + 1 + |whole|,
                   |f| + 1 + |whole| + 1 + |frac|, frac);
  }

  lemma {:induction false} FractionalNoMarked(f: string, whole: string, frac: string)
    requires forall j :: 0 <= j < |f| ==> f[j] != ':' && !IsDigit(f[j])
    requires |whole| > 0 && AllDigits(whole) && AllDigits(frac)
    ensures var s := FractionalTag(f, whole, frac);
      SearchSize(s, Some(':')).None? && SearchSize(s, Some('-')).None?
  {
    var s := FractionalTag(f, whole, frac);
    TagShape(f, whole, frac);
    NoMarkedMatch(s, |f|, |f| + 1 + |whole|);
  }

  /** The shape `BareAfterPoint` needs, for a fractional tag. */
  lemma {:induction false} BareShape(f: string, whole: string, frac: string)
    requires forall j :: 0 <= j < |f| ==> f[j] != ':' && !IsDigit(f[j])
    requires |whole| > 0 && AllDigits(whole) && |frac| > 0 && AllDigits(frac)
    ensures PointShape(FractionalTag(f, whole, frac), |f|, |f| + 1 + |whole|,
                       |f| + 1 + |whole| + 1 + |frac|, frac)
  {
    var s := FractionalTag(f, whole, frac);
    TagShape(f, whole, frac);
    forall j | 0 <= j < |f| ensures !IsDigit(s[j]) {
      assert s[j] == f[j];
    }
  }

  lemma {:induction false} NoColonInFamilies()
    ensures ':' !in "llama3.2" && ':' !in "qwen2.5"
  {
  }

  lemma {:induction false} LlamaTag()
    ensures "llama3.2:1b" == "llama3.2" + ([':'] + "1" + ['b'] + "")
  {
  }

  lemma {:induction false} QwenTag()
    ensures "qwen2.5:14b" == "qwen2.5" + ([':'] + "14" + ['b'] + "")
    ensures DigitsValue("14") == 14
  {
    assert "14"[..1] == "1";
  }

  lemma {:induction false} LlamaExample()
    ensures EstimateModelSize("llama3.2:1b") == 1
  {
    NoColonInFamilies();
    LlamaTag();
    TaggedSize("llama3.2", "1", "");
  }

  lemma {:induction false} QwenExample()
    ensures EstimateModelSize("qwen2.5:14b") == 14
  {
    NoColonInFamilies();
    QwenTag();
    TaggedSize("qwen2.5", "14", "");
  }

  /** Sizes written the usual Ollama way are read correctly. */
  lemma {:induction false} EstimateExamples()
    ensures EstimateModelSize("llama3.2:1b") == 1
    ensures EstimateModelSize("qwen2.5:14b") == 14
  {
    LlamaExample();
    QwenExample();
  }

  lemma {:induction false} QwenFractionalTag()
    ensures "qwen:1.5b" == FractionalTag("qwen", "1", "5")
  {
  }

  lemma {:induction false} QwenLower()
    ensures Lower("qwen:1.5b") == "qwen:1.5b"
  {
    LowerFixed("qwen:1.5b");
  }

  lemma {:induction false} QwenFamily()
    ensures forall j :: 0 <= j < |"qwen"| ==> "qwen"[j] != ':' && !IsDigit("qwen"[j])
  {
  }

  lemma {:induction false} QwenPattern()
    ensures PatternEstimate("qwen:1.5b") == 5
  {
    QwenFractionalTag();
    QwenFamily();
    FractionalPatternEstimate("qwen", "1", "5");
  }

  /** `qwen:1.5b`, a 1.5-billion-parameter model, is estimated at 5: the `"1.5b"`
      keyword bucket that would give 1 is never reached. */
  lemma {:induction false} FractionalExample()
    ensures EstimateModelSize("qwen:1.5b") == 5
  {
    QwenLower();
    QwenPattern();
    KeywordBucketsUnreachable("qwen:1.5b");
  }

  // ===========================================================================
  // get_available_models

  /** One element of the `models` list of the `/api/tags` reply: a JSON object with
      optional `name` and `model` strings and a `size` (0 when missing), or any other JSON
      value, on which `.get` raises. */
  datatype ModelEntry = ModelObject(name: Option<string>, model: Option<string>, size: int)
                      | NonObject

  /** The body of a 200 reply to `/api/tags`. `UnusableJson` is a top-level JSON value on
      which the `"models" in data` test itself raises (a number, say). */
  datatype TagsBody = NotJson | UnusableJson | NoModelsKey | ModelsNotList
                    | ModelsList(entries: seq<ModelEntry>)

  /** The outcome of `GET /api/tags`: a reply, or one of the request exceptions (a
      timeout, a refused connection, any other `RequestException`). */
  datatype TagsOutcome = TagsReply(status: int, body: TagsBody)
                       | TagsTimeout | TagsConnectionError | TagsRequestError

  datatype ModelMeta = ModelMeta(size: int, estimatedParams: nat)

  /** `model_info.get("name") or model_info.get("model")`, kept only when truthy. */
  function EntryName(e: ModelEntry): Option<string> {
    match e
    case NonObject => None
    case ModelObject(name, model, _) =>
      if name.Some? && name.value != "" then name
      else if model.Some? && model.value != "" then model
      else None
  }

  /** The names appended by the loop over `entries`, in order. */
  function NamesOf(es: seq<ModelEntry>): seq<string> {
    if es == [] then []
    else
      var last := es[|es| - 1];
      NamesOf(es[..|es| - 1]) + (if EntryName(last).Some? then [EntryName(last).value] else [])
  }

  /** The metadata after one entry: a named entry's size and estimate under its name. */
  function Record(meta: map<string, ModelMeta>, e: ModelEntry): map<string, ModelMeta> {
    match EntryName(e)
    case None => meta
    case Some(n) => meta[n := ModelMeta(e.size, EstimateModelSize(n))]
  }

  /** The metadata after the loop over `entries` has recorded each named entry. */
  function RecordAll(meta: map<string, ModelMeta>, es: seq<ModelEntry>): map<string, ModelMeta> {
    if es == [] then meta
    else Record(RecordAll(meta, es[..|es| - 1]), es[|es| - 1])
  }

  /** The index of the first entry that is not an object (`|es|` when there is none). */
  function FirstNonObject(es: seq<ModelEntry>): (k: nat)
    ensures k <= |es|
    ensures forall j :: 0 <= j < k ==> es[j].ModelObject?
    ensures k < |es| ==> es[k].NonObject?
  {
    if es == [] then 0
    else if es[0].NonObject? then 0
    else 1 + FirstNonObject(es[1..])
  }

  lemma {:induction false} FirstNonObjectAt(es: seq<ModelEntry>, i: nat)
    requires i <= |es| && forall j :: 0 <= j < i ==> es[j].ModelObject?
    requires i < |es| ==> es[i].NonObject?
    ensures FirstNonObject(es) == i
  {
  }

  /** One more entry of the loop: its name, if any, is appended and recorded. */
  lemma {:induction false} EntriesStep(meta: map<string, ModelMeta>, es: seq<ModelEntry>, i: nat)
    requires i < |es|
    ensures NamesOf(es[..i + 1]) == NamesOf(es[..i]) + (if EntryName(es[i]).Some? then [EntryName(es[i]).value] else [])
    ensures RecordAll(meta, es[..i + 1]) == Record(RecordAll(meta, es[..i]), es[i])
  {
    assert es[..i + 1][..i] == es[..i];
  }

  /** The loop over the entries of the `models` list: the names it appends and the
      metadata it records, up to the first entry that is not an object (at `k`, where
      the loop raises), or over all of them (`k == |es|`). */
  method ScanEntries(es: seq<ModelEntry>, meta0: map<string, ModelMeta>)
    returns (names: seq<string>, meta: map<string, ModelMeta>, k: nat)
    ensures k == FirstNonObject(es)
    ensures names == NamesOf(es[..k]) && meta == RecordAll(meta0, es[..k])
  {
    names, meta := [], meta0;
    k := 0;
    while k < |es|
      invariant 0 <= k <= |es|
      invariant forall j :: 0 <= j < k ==> es[j].ModelObject?
      invariant names == NamesOf(es[..k])
      invariant meta == RecordAll(meta0, es[..k])
    {
      if es[k].NonObject? {
        FirstNonObjectAt(es, k);
        return;
      }
      EntriesStep(meta0, es, k);
      var n := EntryName(es[k]);
      if n.Some? {
        names := names + [n.value];
      }
      meta := Record(meta, es[k]);
      k := k + 1;
    }
    FirstNonObjectAt(es, k);
  }

  /** The provider's cache: the last fetched list (`None` until a fetch succeeds) and
      the metadata of every model seen since the last clearing. */
  datatype ListingState = ListingState(cache: Option<seq<string>>, meta: map<string, ModelMeta>)

  datatype Listing = Listing(models: seq<string>, state: ListingState)

  /** A query of `/api/tags` from the metadata `meta`. A 200 reply with a list caches
      the sorted names; one without a usable `models` list caches the empty list; every
      failure returns the empty list and caches nothing. An entry that is not an object
      aborts the loop, keeping the metadata recorded up to it. */
  function Fetch(meta: map<string, ModelMeta>, tags: TagsOutcome): Listing {
    match tags
    case TagsReply(status, body) =>
      if status != 200 then Listing([], ListingState(None, meta))
      else (
        match body
        case NotJson => Listing([], ListingState(None, meta))
        case UnusableJson => Listing([], ListingState(None, meta))
        case NoModelsKey => Listing([], ListingState(Some([]), meta))
        case ModelsNotList => Listing([], ListingState(Some([]), meta))
        case ModelsList(es) =>
          var k := FirstNonObject(es);
          if k < |es| then Listing([], ListingState(None, RecordAll(meta, es[..k])))
          else
            var ms := SortStrings(NamesOf(es));
            Listing(ms, ListingState(Some(ms), RecordAll(meta, es))))
    case _ => Listing([], ListingState(None, meta))
  }

  /** Whether `get_available_models` queries the server. */
  predicate Queries(st: ListingState, forceRefresh: bool) {
    forceRefresh || st.cache.None?
  }

  /** `get_available_models(force_refresh)`: a forced refresh clears the cache first; a
      cached list is returned re-sorted; otherwise the server is queried. */
  function ListModels(st: ListingState, forceRefresh: bool, tags: TagsOutcome): Listing {
    var st0 := if forceRefresh then ListingState(None, map[]) else st;
    if st0.cache.Some? then Listing(SortStrings(st0.cache.value), st0)
    else Fetch(st0.meta, tags)
  }

  /** What the cache keeps true: a cached list is sorted, and each cached name has its
      metadata with the estimate of its size. */
  predicate CacheValid(st: ListingState) {
    st.cache.Some? ==>
      && SortedStrings(st.cache.value)
      && forall n :: n in st.cache.value ==>
           n in st.meta && st.meta[n].estimatedParams == EstimateModelSize(n)
  }

  lemma {:induction false} NamesRecorded(meta: map<string, ModelMeta>, es: seq<ModelEntry>)
    ensures forall n :: n in NamesOf(es) ==>
      n in RecordAll(meta, es) && RecordAll(meta, es)[n].estimatedParams == EstimateModelSize(n)
    decreases |es|
  {
    if es != [] {
      NamesRecorded(meta, es[..|es| - 1]);
    }
  }

  /** Every listing keeps the cache valid. */
  lemma {:induction false} ListModelsKeepsCacheValid(st: ListingState, forceRefresh: bool, tags: TagsOutcome)
    requires CacheValid(st)
    ensures CacheValid(ListModels(st, forceRefresh, tags).state)
  {
    if forceRefresh || st.cache.None? {
      var meta := if forceRefresh then map[] else st.meta;
      FetchKeepsCacheValid(meta, tags);
    }
  }

  /** A fetch leaves a valid cache, whatever the reply. */
  lemma {:induction false} FetchKeepsCacheValid(meta: map<string, ModelMeta>, tags: TagsOutcome)
    ensures CacheValid(Fetch(meta, tags).state)
  {
    if tags.TagsReply? && tags.status == 200 && tags.body.ModelsList? {
      var es := tags.body.entries;
      if FirstNonObject(es) == |es| {
        SortedNamesValid(meta, es);
      }
    }
  }

  /** The names of a fully read list, sorted, with the metadata recorded for them. */
  lemma {:induction false} SortedNamesValid(meta: map<string, ModelMeta>, es: seq<ModelEntry>)
    ensures CacheValid(ListingState(Some(SortStrings(NamesOf(es))), RecordAll(meta, es)))
  {
    NamesRecorded(meta, es);
    var ms := SortStrings(NamesOf(es));
    forall n | n in ms ensures n in NamesOf(es) {
      assert n in multiset(ms);
    }
  }

  /** A listing served from a valid cache returns the cached list unchanged and leaves
      the state alone: the re-sort in the source is the identity there. */
  lemma {:induction false} CachedListingIsStable(st: ListingState, tags: TagsOutcome)
    requires CacheValid(st) && st.cache.Some?
    ensures ListModels(st, false, tags) == Listing(st.cache.value, st)
  {
    SortSortedIsIdentity(st.cache.value);
  }

  /** The result of a listing is always sorted, and it is what the cache then holds,
      unless the fetch failed. */
  lemma {:induction false} ListingSortedAndCached(st: ListingState, forceRefresh: bool, tags: TagsOutcome)
    requires CacheValid(st)
    ensures SortedStrings(ListModels(st, forceRefresh, tags).models)
    ensures var l := ListModels(st, forceRefresh, tags);
      l.state.cache.Some? ==> l.models == l.state.cache.value
  {
    if !forceRefresh && st.cache.Some? {
      CachedListingIsStable(st, tags);
    }
  }

  /** Without a query the server's reply plays no part. */
  lemma {:induction false} UnqueriedListingIgnoresServer(st: ListingState, t1: TagsOutcome, t2: TagsOutcome)
    requires !Queries(st, false)
    ensures ListModels(st, false, t1) == ListModels(st, false, t2)
  {
  }

  // ===========================================================================
  // get_default_model

  const FallbackModel: string := "llama3.2:1b"

  function SizeKey(m: string): int {
    EstimateModelSize(m)
  }

  /** The model `get_default_model` picks from the listed models. */
  function PickDefault(models: seq<string>): string {
    if models == [] then FallbackModel else SortByKey(models, SizeKey)[0]
  }

  /** The default is the first listed model with the smallest estimated size. */
  lemma {:induction false} DefaultIsFirstSmallest(models: seq<string>)
    requires models != []
    ensures PickDefault(models) == models[FirstMinIndex(models, SizeKey)]
  {
    var i := FirstMinIndex(models, SizeKey);
    SortByKeyHead(models, SizeKey, i);
  }

  /** From a listing (sorted by name), the default is a listed model of the smallest
      estimated size, and the alphabetically first among those of that size. */
  lemma {:induction false} DefaultOfSortedListing(models: seq<string>)
    requires models != [] && SortedStrings(models)
    ensures PickDefault(models) in models
    ensures forall m :: m in models ==> SizeKey(PickDefault(models)) <= SizeKey(m)
    ensures forall m :: m in models && SizeKey(m) == SizeKey(PickDefault(models)) ==>
      LexLe(PickDefault(models), m)
  {
    DefaultIsFirstSmallest(models);
    var i := FirstMinIndex(models, SizeKey);
    var pick := models[i];
    forall m | m in models && SizeKey(m) == SizeKey(pick) ensures LexLe(pick, m) {
      var j :| 0 <= j < |models| && models[j] == m;
      if j == i { LexLeReflexive(pick); }
    }
  }

  datatype Selection = Selection(model: string, state: ListingState)

  /** `model or self.get_default_model()`. */
  function SelectModel(st: ListingState, model: Option<string>, tags: TagsOutcome): Selection {
    if Truthy(model) then Selection(model.value, st)
    else
      var l := ListModels(st, false, tags);
      Selection(PickDefault(l.models), l.state)
  }

  // ===========================================================================
  // Chat generation

  datatype OllamaMessage = OllamaMessage(role: string, content: string)

  /** The JSON body posted to `/api/chat`. */
  datatype ChatCall = ChatCall(model: string, messages: seq<OllamaMessage>, stream: bool)

  /** The conversion loop: each message's `role`, then its `content`; the first missing
      key raises `KeyError`, whose text is the quoted key. */
  function ConvertMessages(ms: seq<WireMessage>): Result<seq<OllamaMessage>, Exc> {
    if ms == [] then Ok([])
    else if ms[0].role.None? then Err(OtherError("'role'"))
    else if ms[0].content.None? then Err(OtherError("'content'"))
    else
      match ConvertMessages(ms[1..])
      case Err(e) => Err(e)
      case Ok(rest) => Ok([OllamaMessage(ms[0].role.value, ms[0].content.value)] + rest)
  }

  /** The conversion succeeds exactly when every message has both keys, and then keeps
      each role and content in order; otherwise the error names the first missing key,
      `role` before `content`. */
  lemma {:induction false} ConvertMessagesMeaning(ms: seq<WireMessage>)
    ensures var r := ConvertMessages(ms);
      && (r.Ok? <==> forall i :: 0 <= i < |ms| ==> ms[i].role.Some? && ms[i].content.Some?)
      && (r.Ok? ==> |r.value| == |ms| && forall i :: 0 <= i < |ms| ==>
            r.value[i] == OllamaMessage(ms[i].role.value, ms[i].content.value))
      && (r.Err? ==> exists k :: (0 <= k < |ms| && (ms[k].role.None? || ms[k].content.None?)
            && (forall j :: 0 <= j < k ==> ms[j].role.Some? && ms[j].content.Some?)
            && r.error == OtherError(if ms[k].role.None? then "'role'" else "'content'")))
  {
    if ms != [] && ms[0].role.Some? && ms[0].content.Some? {
      ConvertMessagesMeaning(ms[1..]);
      var r := ConvertMessages(ms[1..]);
      if r.Err? {
        var k :| 0 <= k < |ms[1..]| && (ms[1..][k].role.None? || ms[1..][k].content.None?)
            && (forall j :: 0 <= j < k ==> ms[1..][j].role.Some? && ms[1..][j].content.Some?)
            && r.error == OtherError(if ms[1..][k].role.None? then "'role'" else "'content'");
        assert ms[k + 1] == ms[1..][k];
        forall j | 0 <= j < k + 1 ensures ms[j].role.Some? && ms[j].content.Some? {
          if j > 0 { assert ms[j] == ms[1..][j - 1]; }
        }
      } else {
        forall i | 0 <= i < |ms| ensures ms[i].role.Some? && ms[i].content.Some? {
          if i > 0 { assert ms[i] == ms[1..][i - 1]; }
        }
      }
    }
  }

  /** `out` followed by the converted rest, or the rest's error. */
  function Prepend(out: seq<OllamaMessage>, r: Result<seq<OllamaMessage>, Exc>)
    : Result<seq<OllamaMessage>, Exc>
  {
    match r
    case Err(e) => Err(e)
    case Ok(rest) => Ok(out + rest)
  }

  /** The loop that builds `ollama_messages`. */
  method ToOllamaMessages(ms: seq<WireMessage>) returns (r: Result<seq<OllamaMessage>, Exc>)
    ensures r == ConvertMessages(ms)
  {
    var out: seq<OllamaMessage> := [];
    var i := 0;
    assert ms[0..] == ms;
    assert ConvertMessages(ms).Ok? ==> [] + ConvertMessages(ms).value == ConvertMessages(ms).value;
    while i < |ms|
      invariant 0 <= i <= |ms|
      invariant ConvertMessages(ms) == Prepend(out, ConvertMessages(ms[i..]))
    {
      var tail := ms[i..];
      assert tail[0] == ms[i] && tail[1..] == ms[i + 1..];
      if ms[i].role.None? { return Err(OtherError("'role'")); }
      if ms[i].content.None? { return Err(OtherError("'content'")); }
      var m := OllamaMessage(ms[i].role.value, ms[i].content.value);
      var next := ConvertMessages(ms[i + 1..]);
      if next.Ok? {
        assert ConvertMessages(tail) == Ok([m] + next.value);
        assert out + ([m] + next.value) == (out + [m]) + next.value;
      }
      out := out + [m];
      i := i + 1;
    }
    assert ms[i..] == [];
    assert out + [] == out;
    r := Ok(out);
  }

  /** The error text of a non-200 reply: the body's `error` field, else a fallback. */
  function StatusErrorText(status: int, error: Option<string>): string {
    error.GetOr("Ollama API error: " + IntToString(status))
  }

  /** The memory test applied to the error text, lower-cased. */
  predicate MentionsMemory(msg: string) {
    var l := Lower(msg);
    Contains(l, "memory") || Contains(l, "buffer") || Contains(l, "allocate")
      || Contains(l, "cuda") || Contains(l, "out of memory")
  }

  lemma {:induction false} ContainsInner(s: string, outer: string, inner: string, off: nat)
    requires off + |inner| <= |outer| && outer[off..off + |inner|] == inner
    requires Contains(s, outer)
    ensures Contains(s, inner)
  {
    var p := IndexOf(s, outer).value;
    var w := s[p..p + |outer|];
    assert w == outer;
    forall k | 0 <= k < |inner| ensures s[p + off + k] == inner[k] {
      assert w[off + k] == s[p + off + k];
      assert outer[off..off + |inner|][k] == outer[off + k];
    }
    assert s[p + off..p + off + |inner|] == inner;
    ContainsAt(s, inner, p + off);
  }

  /** The keyword "out of memory" adds nothing: any text containing it contains
      "memory". */
  lemma {:induction false} OutOfMemoryKeywordRedundant(msg: string)
    ensures MentionsMemory(msg) <==>
      var l := Lower(msg);
      Contains(l, "memory") || Contains(l, "buffer") || Contains(l, "allocate") || Contains(l, "cuda")
  {
    var l := Lower(msg);
    if Contains(l, "out of memory") {
      ContainsInner(l, "out of memory", "memory", 7);
    }
  }

  function Take5(ms: seq<string>): seq<string> {
    if |ms| <= 5 then ms else ms[..5]
  }

  /** The exception for a memory-related rejection, naming at most five models. */
  function MemoryFailure(selected: string, msg: string, available: seq<string>): Exc {
    OtherError("Memory error loading model '" + selected + "': " + msg
      + ". Try using a smaller model. Available models: " + Join(Take5(available), ", "))
  }

  /** The exception for a `RequestException` whose text is `text`. */
  function RequestFailure(selected: string, text: string): Exc {
    var l := Lower(text);
    if Contains(l, "buffer") || Contains(l, "allocate") then
      OtherError("Memory allocation error with model '" + selected + "': " + text
        + ". Try using a smaller model.")
    else
      OtherError("Failed to connect to Ollama: " + text)
  }

  datatype Rejection = Rejection(error: Exc, state: ListingState)

  /** A non-200 reply: a memory-related text lists the available models (a listing,
      which may query the server and update the cache); any other text is raised as it
      is. */
  function Reject(st: ListingState, selected: string, status: int, error: Option<string>,
                  tags: TagsOutcome): Rejection
  {
    var msg := StatusErrorText(status, error);
    if MentionsMemory(msg) then
      var l := ListModels(st, false, tags);
      Rejection(MemoryFailure(selected, msg, l.models), l.state)
    else Rejection(OtherError(msg), st)
  }

  /** The `message.content` of a 200 reply: missing (the whole `message` missing
      included), JSON `null`, or a string. */
  datatype ContentField = NoContent | NullContent | Content(text: string)

  /** `message.get("content", "")`: a missing field reads as the empty text, a `null`
      one as `None`. */
  function ContentText(c: ContentField): (t: Option<string>)
    ensures t.None? <==> c.NullContent?
    ensures c.Content? ==> t == Some(c.text)
  {
    match c
    case NoContent => Some("")
    case NullContent => None
    case Content(text) => Some(text)
  }

  /** The outcome of the non-streaming `POST /api/chat`: a 200 reply (with its
      `message.content` field), a non-200 reply (with the `error` field of
      its body, if any), or a `RequestException` with its text. */
  datatype ChatReply = ChatReplied(content: ContentField)
                     | ChatRejected(status: int, error: Option<string>)
                     | ChatUnreachable(text: string)

  datatype Generation = Generation(result: Result<Option<string>, Exc>, call: Option<ChatCall>,
                                   state: ListingState)

  /** `generate_response_with_messages`: select the model, convert the messages (a
      `KeyError` escapes before anything is sent), post them, classify the outcome.
      `tags` answers the listing made to pick a default model and `retags` the one made
      after a memory-related rejection: a failed listing caches nothing, so the server
      may be asked twice and answer differently. */
  function Generate(st: ListingState, messages: seq<WireMessage>, model: Option<string>,
                    tags: TagsOutcome, retags: TagsOutcome,
                    reply: ChatReply): Generation
  {
    var sel := SelectModel(st, model, tags);
    match ConvertMessages(messages)
    case Err(e) => Generation(Err(e), None, sel.state)
    case Ok(oms) =>
      var call := Some(ChatCall(sel.model, oms, false));
      match reply
      case ChatReplied(content) => Generation(Ok(ContentText(content)), call, sel.state)
      case ChatRejected(status, error) =>
        var rej := Reject(sel.state, sel.model, status, error, retags);
        Generation(Err(rej.error), call, rej.state)
      case ChatUnreachable(text) => Generation(Err(RequestFailure(sel.model, text)), call, sel.state)
  }

  /** What is posted: the requested model when one is given, else the default picked
      from the listing; the history with the same roles and contents, in order; no
      streaming. Nothing is posted when a message lacks a key. */
  lemma {:induction false} GenerateSendsHistory(st: ListingState, messages: seq<WireMessage>, model: Option<string>,
                             tags: TagsOutcome, retags: TagsOutcome,
                    reply: ChatReply)
    ensures var g := Generate(st, messages, model, tags, retags, reply);
      && (g.call.Some? <==> forall i :: 0 <= i < |messages| ==> messages[i].role.Some? && messages[i].content.Some?)
      && (g.call.Some? ==>
           && !g.call.value.stream
           && g.call.value.model == (if Truthy(model) then model.value
                                     else PickDefault(ListModels(st, false, tags).models))
           && |g.call.value.messages| == |messages|
           && forall i :: 0 <= i < |messages| ==>
                g.call.value.messages[i].role == messages[i].role.value
                && g.call.value.messages[i].content == messages[i].content.value)
  {
    ConvertMessagesMeaning(messages);
  }

  /** Errors never pass silently: a rejection or an unreachable server is always an
      error, and only a 200 reply is a success, returning its `content` as `get` reads
      it (`None` for a JSON `null`). */
  lemma {:induction false} GenerateSucceedsOnlyOnReply(st: ListingState, messages: seq<WireMessage>, model: Option<string>,
                                    tags: TagsOutcome, retags: TagsOutcome,
                    reply: ChatReply)
    ensures Generate(st, messages, model, tags, retags, reply).result.Ok? <==>
      reply.ChatReplied? && ConvertMessages(messages).Ok?
    ensures Generate(st, messages, model, tags, retags, reply).result.Ok? ==>
      Generate(st, messages, model, tags, retags, reply).result.value == ContentText(reply.content)
  {
  }

  /** The listing after a memory-related rejection is a listing of its own: it is served
      from the cache the selection left, if any, and otherwise asks the server again,
      whose second answer is the one reported. */
  lemma {:induction false} RejectionListsAgain(st: ListingState, messages: seq<WireMessage>, model: Option<string>,
                                tags: TagsOutcome, retags: TagsOutcome, other: TagsOutcome,
                                status: int, error: Option<string>)
    requires ConvertMessages(messages).Ok? && MentionsMemory(StatusErrorText(status, error))
    ensures var sel := SelectModel(st, model, tags);
      var g := Generate(st, messages, model, tags, retags, ChatRejected(status, error));
      && (sel.state.cache.Some? ==>
            g == Generate(st, messages, model, tags, other, ChatRejected(status, error)))
      && (sel.state.cache.None? ==>
            var l := Fetch(sel.state.meta, retags);
            g.result == Err(MemoryFailure(sel.model, StatusErrorText(status, error), l.models))
            && g.state == l.state)
  {
    var sel := SelectModel(st, model, tags);
    if sel.state.cache.Some? {
      UnqueriedListingIgnoresServer(sel.state, retags, other);
    }
  }

  // ---------------------------------------------------------------------------
  // Streaming

  /** One line of the streamed reply: blank, not JSON (skipped), a JSON object with an
      optional `message.content`, or a line whose handling raises something other than
      a JSON decoding error (undecodable UTF-8, a JSON value that is not an object). */
  datatype StreamLine = BlankLine | NotJsonLine | ChunkLine(content: Option<string>)
                      | BadLine(failure: Exc)

  /** The outcome of the streaming `POST /api/chat`: the lines read before the body
      ended or a `RequestException` with text `broken` interrupted it, a non-200 reply,
      or a `RequestException` raised by the post itself. */
  datatype StreamReply = StreamOpened(lines: seq<StreamLine>, broken: Option<string>)
                       | StreamRejected(status: int, error: Option<string>)
                       | StreamUnreachable(text: string)

  /** The fragments the line loop yields, and the exception that ended it early. */
  function DrainLines(lines: seq<StreamLine>): (d: ChunkStream)
    ensures forall i :: 0 <= i < |d.chunks| ==> d.chunks[i] != ""
  {
    if lines == [] then ChunkStream([], None)
    else
      match lines[0]
      case BadLine(e) => ChunkStream([], Some(e))
      case BlankLine => DrainLines(lines[1..])
      case NotJsonLine => DrainLines(lines[1..])
      case ChunkLine(c) =>
        var rest := DrainLines(lines[1..]);
        if Truthy(c) then ChunkStream([c.value] + rest.chunks, rest.failure) else rest
  }

  /** Lines are handled one at a time: draining a concatenation drains the first part,
      and the second only if the first ended normally. */
  lemma {:induction false} DrainLinesAppend(a: seq<StreamLine>, b: seq<StreamLine>)
    ensures DrainLines(a + b) ==
      if DrainLines(a).failure.Some? then DrainLines(a)
      else ChunkStream(DrainLines(a).chunks + DrainLines(b).chunks, DrainLines(b).failure)
  {
    if a != [] {
      assert (a + b)[0] == a[0];
      assert (a + b)[1..] == a[1..] + b;
      DrainLinesAppend(a[1..], b);
      var ra := DrainLines(a[1..]);
      var rab := DrainLines(a[1..] + b);
      match a[0]
      case BadLine(e) =>
        assert DrainLines(a) == ChunkStream([], Some(e));
        assert DrainLines(a + b) == ChunkStream([], Some(e));
      case BlankLine =>
        assert DrainLines(a) == ra;
        assert DrainLines(a + b) == rab;
      case NotJsonLine =>
        assert DrainLines(a) == ra;
        assert DrainLines(a + b) == rab;
      case ChunkLine(c) =>
        if Truthy(c) && ra.failure.None? {
          assert DrainLines(a + b).chunks == [c.value] + rab.chunks;
          assert rab.chunks == ra.chunks + DrainLines(b).chunks;
          assert [c.value] + (ra.chunks + DrainLines(b).chunks)
              == ([c.value] + ra.chunks) + DrainLines(b).chunks;
        }
    } else {
      assert a + b == b;
    }
  }

  /** The `for line in response.iter_lines()` loop. */
  method CollectFragments(lines: seq<StreamLine>) returns (d: ChunkStream)
    ensures d == DrainLines(lines)
  {
    var chunks: seq<string> := [];
    var i := 0;
    while i < |lines|
      invariant 0 <= i <= |lines|
      invariant DrainLines(lines) == ChunkStream(chunks + DrainLines(lines[i..]).chunks,
                                                 DrainLines(lines[i..]).failure)
    {
      assert lines[i..][1..] == lines[i + 1..];
      match lines[i] {
        case BadLine(e) =>
          return ChunkStream(chunks, Some(e));
        case BlankLine =>
        case NotJsonLine =>
        case ChunkLine(c) =>
          if Truthy(c) { chunks := chunks + [c.value]; }
      }
      i := i + 1;
    }
    assert lines[i..] == [];
    d := ChunkStream(chunks, None);
  }

  datatype Streaming = Streaming(stream: ChunkStream, call: Option<ChatCall>, state: ListingState)

  /** `stream_response_with_messages`, drained: the same selection, conversion and
      classification as the non-streaming call; the non-empty fragments in order; a
      broken connection ends the stream with the request-failure error. */
  function StreamChat(st: ListingState, messages: seq<WireMessage>, model: Option<string>,
                      tags: TagsOutcome, retags: TagsOutcome,
                      reply: StreamReply): Streaming
  {
    var sel := SelectModel(st, model, tags);
    match ConvertMessages(messages)
    case Err(e) => Streaming(ChunkStream([], Some(e)), None, sel.state)
    case Ok(oms) =>
      var call := Some(ChatCall(sel.model, oms, true));
      match reply
      case StreamOpened(lines, broken) =>
        var d := DrainLines(lines);
        var failure := if d.failure.Some? then d.failure
                       else if broken.Some? then Some(RequestFailure(sel.model, broken.value))
                       else None;
        Streaming(ChunkStream(d.chunks, failure), call, sel.state)
      case StreamRejected(status, error) =>
        var rej := Reject(sel.state, sel.model, status, error, retags);
        Streaming(ChunkStream([], Some(rej.error)), call, rej.state)
      case StreamUnreachable(text) =>
        Streaming(ChunkStream([], Some(RequestFailure(sel.model, text))), call, sel.state)
  }

  /** The streaming and the non-streaming calls fail in the same way: for the same
      rejection or unreachable server they raise the same exception and leave the same
      state; they post the same model and history, differing only in the stream flag. */
  lemma {:induction false} StreamAndGenerateFailAlike(st: ListingState, messages: seq<WireMessage>, model: Option<string>,
                                   tags: TagsOutcome, retags: TagsOutcome, status: int, error: Option<string>, text: string)
    ensures var g := Generate(st, messages, model, tags, retags, ChatRejected(status, error));
      var s := StreamChat(st, messages, model, tags, retags, StreamRejected(status, error));
      g.result.Err? && s.stream == ChunkStream([], Some(g.result.error)) && s.state == g.state
    ensures var g := Generate(st, messages, model, tags, retags, ChatUnreachable(text));
      var s := StreamChat(st, messages, model, tags, retags, StreamUnreachable(text));
      g.result.Err? && s.stream == ChunkStream([], Some(g.result.error)) && s.state == g.state
    ensures var g := Generate(st, messages, model, tags, retags, ChatUnreachable(text));
      var s := StreamChat(st, messages, model, tags, retags, StreamUnreachable(text));
      (g.call.Some? <==> s.call.Some?)
      && (g.call.Some? ==> s.call.value == g.call.value.(stream := true))
  {
  }

  // ===========================================================================
  // The provider object

  class OllamaProvider {
    const name: string
    const baseUrl: string
    const generateEndpoint: string
    const chatEndpoint: string
    const tagsEndpoint: string
    var cachedModels: Option<seq<string>>
    var modelMetadata: map<string, ModelMeta>

    function State(): ListingState
      reads this
    {
      ListingState(cachedModels, modelMetadata)
    }

    /** `OllamaProvider(base_url)`: an empty or missing URL falls back to the
        configured one. */
    constructor(url: Option<string>, configuredUrl: string)
      ensures name == "ollama"
      ensures baseUrl == (if Truthy(url) then url.value else configuredUrl)
      ensures generateEndpoint == baseUrl + "/api/generate"
      ensures chatEndpoint == baseUrl + "/api/chat"
      ensures tagsEndpoint == baseUrl + "/api/tags"
      ensures State() == ListingState(None, map[])
    {
      name := "ollama";
      var b := if Truthy(url) then url.value else configuredUrl;
      baseUrl := b;
      generateEndpoint := b + "/api/generate";
      chatEndpoint := b + "/api/chat";
      tagsEndpoint := b + "/api/tags";
      cachedModels := None;
      modelMetadata := map[];
    }

    method ClearCache()
      modifies this
      ensures State() == ListingState(None, map[])
    {
      cachedModels := None;
      modelMetadata := map[];
    }

    /** `get_available_models(force_refresh)` with `tags` the reply of the query it may
        make. */
    method GetAvailableModels(forceRefresh: bool, tags: TagsOutcome) returns (models: seq<string>)
      modifies this
      ensures Listing(models, State()) == ListModels(old(State()), forceRefresh, tags)
    {
      if forceRefresh {
        ClearCache();
      }
      if cachedModels.Some? {
        return SortStrings(cachedModels.value);
      }
      models := [];
      match tags {
        case TagsReply(status, body) =>
          if status == 200 {
            match body {
              case NotJson =>
              case UnusableJson =>
              case NoModelsKey =>
                cachedModels := Some([]);
              case ModelsNotList =>
                cachedModels := Some([]);
              case ModelsList(es) =>
                models := RecordEntries(es);
            }
          }
        case TagsTimeout =>
        case TagsConnectionError =>
        case TagsRequestError =>
      }
    }

    /** What `get_available_models` does with the entries of a 200 reply's `models`
        list: record each named entry's metadata, stop without caching at the first
        entry that is not an object, else cache and return the sorted names. */
    method RecordEntries(es: seq<ModelEntry>) returns (models: seq<string>)
      requires cachedModels == None
      modifies this
      ensures Listing(models, State()) == Fetch(old(modelMetadata), TagsReply(200, ModelsList(es)))
    {
      var names, meta, k := ScanEntries(es, modelMetadata);
      modelMetadata := meta;
      if k < |es| {
        models := [];
      } else {
        assert es[..k] == es;
        models := SortStrings(names);
        cachedModels := Some(models);
      }
    }

    /** `get_default_model()`. */
    method GetDefaultModel(tags: TagsOutcome) returns (model: string)
      modifies this
      ensures Selection(model, State()) == SelectModel(old(State()), None, tags)
    {
      var available := GetAvailableModels(false, tags);
      if available != [] {
        var sorted := SortByKey(available, SizeKey);
        model := sorted[0];
      } else {
        model := FallbackModel;
      }
    }

    /** `model or self.get_default_model()`. */
    method Select(model: Option<string>, tags: TagsOutcome) returns (selected: string)
      modifies this
      ensures Selection(selected, State()) == SelectModel(old(State()), model, tags)
    {
      if Truthy(model) {
        selected := model.value;
      } else {
        selected := GetDefaultModel(tags);
      }
    }

    method RejectionError(selected: string, status: int, error: Option<string>, tags: TagsOutcome)
      returns (e: Exc)
      modifies this
      ensures Rejection(e, State()) == Reject(old(State()), selected, status, error, tags)
    {
      var msg := StatusErrorText(status, error);
      if MentionsMemory(msg) {
        var available := GetAvailableModels(false, tags);
        e := MemoryFailure(selected, msg, available);
      } else {
        e := OtherError(msg);
      }
    }

    /** `generate_response_with_messages(messages, model)`: `tags` answers the listing
        made to pick a default model, `retags` the listing after a memory-related
        rejection, `reply` is the outcome of the chat request; `call` is the body posted. */
    method GenerateResponseWithMessages(messages: seq<WireMessage>, model: Option<string>,
                                        tags: TagsOutcome, retags: TagsOutcome, reply: ChatReply)
      returns (result: Result<Option<string>, Exc>, call: Option<ChatCall>)
      modifies this
      ensures Generation(result, call, State()) == Generate(old(State()), messages, model, tags, retags, reply)
    {
      var selected := Select(model, tags);
      var converted := ToOllamaMessages(messages);
      if converted.Err? {
        return Err(converted.error), None;
      }
      call := Some(ChatCall(selected, converted.value, false));
      match reply {
        case ChatReplied(content) =>
          result := Ok(ContentText(content));
        case ChatRejected(status, error) =>
          var e := RejectionError(selected, status, error, retags);
          result := Err(e);
        case ChatUnreachable(text) =>
          result := Err(RequestFailure(selected, text));
      }
    }

    /** `stream_response_with_messages(messages, model)`, drained by its consumer. */
    method StreamResponseWithMessages(messages: seq<WireMessage>, model: Option<string>,
                                      tags: TagsOutcome, retags: TagsOutcome, reply: StreamReply)
      returns (stream: ChunkStream, call: Option<ChatCall>)
      modifies this
      ensures Streaming(stream, call, State()) == StreamChat(old(State()), messages, model, tags, retags, reply)
    {
      var selected := Select(model, tags);
      var converted := ToOllamaMessages(messages);
      if converted.Err? {
        return ChunkStream([], Some(converted.error)), None;
      }
      call := Some(ChatCall(selected, converted.value, true));
      match reply {
        case StreamOpened(lines, broken) =>
          var d := CollectFragments(lines);
          if d.failure.None? && broken.Some? {
            d := d.(failure := Some(RequestFailure(selected, broken.value)));
          }
          stream := d;
        case StreamRejected(status, error) =>
          var e := RejectionError(selected, status, error, retags);
          stream := ChunkStream([], Some(e));
        case StreamUnreachable(text) =>
          stream := ChunkStream([], Some(RequestFailure(selected, text)));
      }
    }
  }
}
