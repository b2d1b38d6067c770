/** The hashtag endpoint (`POST /api/generate-tags`): the input and key checks, the
    parsing of the language model's comma-separated answer, and the keyword-based
    fallback used when no model is configured or the call fails. The model call
    itself is a parameter: the completion text, or a failure. */
module TagGenerator {
  import opened Wrappers
  import Seqs
  import Strings

  /** One entry of `tagMap`: a tag and the keywords that trigger it. */
  datatype Category = Category(tag: string, keywords: seq<string>)

  const TagMap: seq<Category> := [
    Category("morning", ["morning", "coffee", "sunrise", "wake"]),
    Category("motivation", ["motivation", "inspire", "success", "goal", "achieve"]),
    Category("deepthoughts", ["thought", "philosophy", "wonder", "think", "ponder"]),
    Category("confession", ["confession", "secret", "admit", "truth"]),
    Category("energy", ["energy", "positive", "vibe", "excited", "happy"]),
    Category("relationshipadvice", ["relationship", "love", "dating", "partner", "heart"]),
    Category("mindfulness", ["mindful", "peace", "calm", "meditation", "zen"]),
    Category("growth", ["growth", "learn", "improve", "better", "change"]),
    Category("wisdom", ["wisdom", "advice", "experience", "lesson"]),
    Category("storytelling", ["story", "tale", "remember", "once", "happened"])
  ]

  const GenericTags: seq<string> := ["reflection", "thoughts", "voice", "share", "moment"]

  /** The answer when not even the request body can be read. */
  const LastResortTags: seq<string> := ["mindfulness", "reflection", "storytelling"]

  const PlaceholderKey := "your_openai_api_key_here"

  /** How many tags a response carries at most. */
  const TagCount := 3

  // ---------------------------------------------------------------- keyword matching

  /** Some keyword of c occurs in the (already lower-cased) text. */
  predicate Triggers(lowerText: string, c: Category)
  {
    Seqs.Some(c.keywords, (k: string) => Strings.Contains(lowerText, k))
  }

  function TagsOf(cs: seq<Category>): (tags: seq<string>)
    ensures |tags| == |cs| && forall i :: 0 <= i < |cs| ==> tags[i] == cs[i].tag
  {
    seq(|cs|, i requires 0 <= i < |cs| => cs[i].tag)
  }

  /** The tags of the triggered categories, in category order, built the way the
      `for` loop pushes them. */
  function MatchedIn(lowerText: string, cs: seq<Category>): (tags: seq<string>)
    ensures |tags| <= |cs|
  {
    if cs == [] then []
    else MatchedIn(lowerText, cs[..|cs| - 1]) +
         (if Triggers(lowerText, cs[|cs| - 1]) then [cs[|cs| - 1].tag] else [])
  }

  /** The categories the text triggers, case-insensitively. */
  function MatchedCategories(text: string): seq<string>
  {
    MatchedIn(Strings.ToLower(text), TagMap)
  }

  /** The loop's accumulation is the filter of the triggered categories. */
  lemma {:induction false} MatchedInIsFilter(lowerText: string, cs: seq<Category>)
    ensures MatchedIn(lowerText, cs) == TagsOf(Seqs.Filter(cs, (c: Category) => Triggers(lowerText, c)))
  {
    if cs != [] {
      var p := (c: Category) => Triggers(lowerText, c);
      var init, last := cs[..|cs| - 1], cs[|cs| - 1];
      var kept := if p(last) then [last] else [];
      MatchedInIsFilter(lowerText, init);
      assert Seqs.Filter(cs, p) == Seqs.Filter(init, p) + kept by {
        assert cs == init + [last];
        Seqs.FilterSnoc(init, last, p);
      }
      TagsOfAppend(Seqs.Filter(init, p), kept);
      assert TagsOf(kept) == if Triggers(lowerText, last) then [last.tag] else [];
    }
  }

  lemma TagsOfAppend(a: seq<Category>, b: seq<Category>)
    ensures TagsOf(a + b) == TagsOf(a) + TagsOf(b)
  {
  }

  /** A tag is matched exactly when its category is triggered. */
  lemma {:induction false} MatchedIff(lowerText: string, cs: seq<Category>, t: string)
    ensures t in MatchedIn(lowerText, cs) <==> exists i :: 0 <= i < |cs| && cs[i].tag == t && Triggers(lowerText, cs[i])
  {
    if cs != [] {
      var init, last := cs[..|cs| - 1], cs[|cs| - 1];
      MatchedIff(lowerText, init, t);
      var pushed := if Triggers(lowerText, last) then [last.tag] else [];
      assert t in MatchedIn(lowerText, cs) <==> t in MatchedIn(lowerText, init) || t in pushed;
      if exists i :: 0 <= i < |cs| && cs[i].tag == t && Triggers(lowerText, cs[i]) {
        var i :| 0 <= i < |cs| && cs[i].tag == t && Triggers(lowerText, cs[i]);
        if i < |init| {
          assert init[i] == cs[i];
        }
      }
      if exists i :: 0 <= i < |init| && init[i].tag == t && Triggers(lowerText, init[i]) {
        var i :| 0 <= i < |init| && init[i].tag == t && Triggers(lowerText, init[i]);
        assert cs[i] == init[i];
      }
    }
  }

  /** What the loop has pushed after the first n categories is a prefix of the full list. */
  lemma {:induction false} MatchedPrefix(lowerText: string, cs: seq<Category>, n: nat)
    requires n <= |cs|
    ensures var m := MatchedIn(lowerText, cs[..n]);
      |m| <= |MatchedIn(lowerText, cs)| && MatchedIn(lowerText, cs)[..|m|] == m
    decreases |cs|
  {
    if n < |cs| {
      MatchedPrefix(lowerText, cs[..|cs| - 1], n);
      assert cs[..|cs| - 1][..n] == cs[..n];
    } else {
      assert cs[..n] == cs;
    }
  }

  /** Matching the tags of distinct categories gives distinct tags. */
  lemma {:induction false} MatchedDistinct(lowerText: string, cs: seq<Category>)
    requires Seqs.Distinct(TagsOf(cs))
    ensures Seqs.Distinct(MatchedIn(lowerText, cs))
  {
    if cs != [] {
      var init := cs[..|cs| - 1];
      assert forall i :: 0 <= i < |init| ==> TagsOf(init)[i] == TagsOf(cs)[i];
      MatchedDistinct(lowerText, init);
      var before := MatchedIn(lowerText, init);
      forall k | 0 <= k < |before| ensures before[k] != cs[|cs| - 1].tag {
        assert before[k] in before;
        MatchedIff(lowerText, init, before[k]);
        var i :| 0 <= i < |init| && init[i].tag == before[k] && Triggers(lowerText, init[i]);
        assert TagsOf(cs)[i] == before[k];
      }
    }
  }

  /** Case does not matter: lower-casing the text first matches the same categories. */
  lemma MatchedCaseInsensitive(text: string)
    ensures MatchedCategories(Strings.ToLower(text)) == MatchedCategories(text)
  {
    Strings.ToLowerIdempotent(text);
  }

  lemma TagMapTagsDistinct()
    ensures Seqs.Distinct(TagsOf(TagMap))
  {
    var t := TagsOf(TagMap);
    assert t == ["morning", "motivation", "deepthoughts", "confession", "energy",
                 "relationshipadvice", "mindfulness", "growth", "wisdom", "storytelling"];
  }

  // ---------------------------------------------------------------- the fallback

  /** A tag word: non-empty lower-case letters, so in particular no `#`. */
  predicate IsTagWord(t: string)
  {
    t != [] && forall i :: 0 <= i < |t| ==> Strings.IsLowerAscii(t[i])
  }

  lemma ConstantTagsAreWords()
    ensures forall i :: 0 <= i < |TagMap| ==> IsTagWord(TagMap[i].tag)
    ensures forall i :: 0 <= i < |GenericTags| ==> IsTagWord(GenericTags[i])
  {
  }

  /** What the fallback promises for a text: three distinct tags, the triggered
      categories first (at most three of them, in category order), then generic tags. */
  predicate IsFallbackFor(tags: seq<string>, text: string)
  {
    var m := Seqs.Take(MatchedCategories(text), TagCount);
    |tags| == TagCount && Seqs.Distinct(tags) &&
    tags[..|m|] == m &&
    (forall i :: |m| <= i < TagCount ==> tags[i] in GenericTags)
  }

  /** Every fallback tag is a category tag or a generic tag, hence a tag word. */
  lemma FallbackTagsAreWords(tags: seq<string>, text: string)
    requires IsFallbackFor(tags, text)
    ensures forall i :: 0 <= i < |tags| ==> IsTagWord(tags[i])
  {
    ConstantTagsAreWords();
    var m := Seqs.Take(MatchedCategories(text), TagCount);
    forall i | 0 <= i < |tags| ensures IsTagWord(tags[i]) {
      if i < |m| {
        assert tags[i] == m[i];
        MatchedIff(Strings.ToLower(text), TagMap, tags[i]);
      } else {
        var j :| 0 <= j < |GenericTags| && GenericTags[j] == tags[i];
      }
    }
  }

  /** Fewer than three tags always leave a generic tag unused. */
  lemma GenericTagAvailable(tags: seq<string>)
    requires |tags| < TagCount
    ensures exists g :: g in GenericTags && g !in tags
  {
    var g0, g1, g2 := GenericTags[0], GenericTags[1], GenericTags[2];
    if g0 in tags && g1 in tags && g2 in tags {
      var i :| 0 <= i < |tags| && tags[i] == g0;
      var j :| 0 <= j < |tags| && tags[j] == g1;
      var k :| 0 <= k < |tags| && tags[k] == g2;
    }
  }

  /** The `for` loop of `generateFallbackTags` over the categories cs: push the tag
      of every triggered category, stopping once limit tags are pushed. */
  method CollectMatches(lowerText: string, cs: seq<Category>, limit: nat) returns (tags: seq<string>)
    requires limit > 0
    ensures tags == Seqs.Take(MatchedIn(lowerText, cs), limit)
  {
    tags := [];
    var i := 0;
    while i < |cs|
      invariant 0 <= i <= |cs|
      invariant tags == MatchedIn(lowerText, cs[..i]) && |tags| < limit
    {
      assert cs[..i + 1][..i] == cs[..i];
      if Seqs.Some(cs[i].keywords, (k: string) => Strings.Contains(lowerText, k)) {
        tags := tags + [cs[i].tag];
        if |tags| >= limit {
          MatchedPrefix(lowerText, cs, i + 1);
          break;
        }
      }
      i := i + 1;
    }
    assert cs[..|cs|] == cs;
  }

  /** The `while` loop of `generateFallbackTags`: add unused tags of pool until there
      are n. The source draws from pool with `Math.random` and skips the tags already
      present; here each draw is a choice among the pool's tags not yet present. */
  method FillFrom(start: seq<string>, pool: seq<string>, n: nat) returns (tags: seq<string>)
    requires Seqs.Distinct(start) && |start| <= n
    requires forall t: seq<string> :: |t| < n ==> exists g :: g in pool && g !in t
    ensures |tags| == n && Seqs.Distinct(tags) && tags[..|start|] == start
    ensures forall j :: |start| <= j < n ==> tags[j] in pool
  {
    tags := start;
    while |tags| < n
      invariant |start| <= |tags| <= n && tags[..|start|] == start
      invariant Seqs.Distinct(tags)
      invariant forall j :: |start| <= j < |tags| ==> tags[j] in pool
      decreases n - |tags|
    {
      var randomTag :| randomTag in pool && randomTag !in tags;
      tags := tags + [randomTag];
    }
  }

  /** `generateFallbackTags(text)`. */
  method GenerateFallbackTags(text: string) returns (tags: seq<string>)
    ensures IsFallbackFor(tags, text)
  {
    var lowerText := Strings.ToLower(text);
    var matched := CollectMatches(lowerText, TagMap, TagCount);
    TagMapTagsDistinct();
    MatchedDistinct(lowerText, TagMap);
    forall t: seq<string> | |t| < TagCount ensures exists g :: g in GenericTags && g !in t {
      GenericTagAvailable(t);
    }
    tags := FillFrom(matched, GenericTags, TagCount);
    tags := Seqs.Take(tags, TagCount);
  }

  // ---------------------------------------------------------------- the request

  /** The request body as `request.json()` reads it: unreadable, or an object whose
      `text` field is a string or absent. */
  datatype RequestBody = Unreadable | Body(text: Option<string>)

  /** What the model call produced: its answer's content, or a failure (network
      error, a status that is not ok, an answer without that field). */
  datatype Completion = CallFailed | Answer(content: string)

  datatype TagResponse = Error(status: int, message: string) | TagsResponse(tags: seq<string>)

  /** The incoming `Request`. Its body is a stream that can be read once: `payload` is
      what the first `request.json()` gives, and once the body is used every further
      read rejects, as the Fetch API specifies. */
  class Request {
    const payload: RequestBody
    var bodyUsed: bool

    constructor (payload: RequestBody)
      ensures this.payload == payload && !bodyUsed
    {
      this.payload := payload;
      bodyUsed := false;
    }

    /** `await request.json()`: the payload on the first read, a rejection (modelled
        as an unreadable body) on any later one; either way the body is used. */
    method Json() returns (b: RequestBody)
      modifies this`bodyUsed
      ensures b == (if old(bodyUsed) then Unreadable else payload)
      ensures bodyUsed
    {
      if bodyUsed {
        b := Unreadable;
      } else {
        b := payload;
      }
      bodyUsed := true;
    }
  }

  /** `!text` is false: a present, non-empty string. */
  predicate HasText(text: Option<string>)
  {
    text.Some? && text.value != ""
  }

  /** A real key: present, non-empty and not the placeholder. */
  predicate KeyConfigured(apiKey: Option<string>)
  {
    apiKey.Some? && apiKey.value != "" && apiKey.value != PlaceholderKey
  }

  /** `pieces.map(tag => tag.trim())`. */
  function TrimEach(pieces: seq<string>): (r: seq<string>)
    ensures |r| == |pieces| && forall i :: 0 <= i < |pieces| ==> r[i] == Strings.Trim(pieces[i])
  {
    seq(|pieces|, i requires 0 <= i < |pieces| => Strings.Trim(pieces[i]))
  }

  /** `content.trim().split(',').map(tag => tag.trim()).slice(0, 3)`. */
  function ParseCompletion(content: string): (tags: seq<string>)
    ensures 1 <= |tags| <= TagCount && |tags| <= |Strings.Split(Strings.Trim(content), ',')|
    ensures forall i :: 0 <= i < |tags| ==> tags[i] == Strings.Trim(Strings.Split(Strings.Trim(content), ',')[i])
  {
    Seqs.Take(TrimEach(Strings.Split(Strings.Trim(content), ',')), TagCount)
  }

  /** Trimming cuts a piece out of s, so it adds no character. */
  lemma TrimAddsNothing(s: string, c: char)
    requires c !in s
    ensures c !in Strings.Trim(s)
  {
    Strings.TrimIsInnerPiece(s);
    var a, b :| 0 <= a <= b <= |s| && Strings.Trim(s) == s[a..b];
    assert forall k :: 0 <= k < b - a ==> s[a..b][k] == s[a + k];
  }

  /** A word as the model is asked to answer: non-empty, no whitespace at either end
      and no comma. */
  predicate IsCleanTag(t: string)
  {
    t != [] && !Strings.IsWhitespace(t[0]) && !Strings.IsWhitespace(t[|t| - 1]) && ',' !in t
  }

  /** Each parsed tag has no comma and no whitespace at either end. */
  lemma ParsedTagsAreClean(content: string)
    ensures var tags := ParseCompletion(content);
      forall i :: 0 <= i < |tags| ==> ',' !in tags[i] && (tags[i] == [] || IsCleanTag(tags[i]))
  {
    var pieces := Strings.Split(Strings.Trim(content), ',');
    Strings.SplitJoin(Strings.Trim(content), ',');
    var tags := ParseCompletion(content);
    forall i | 0 <= i < |tags| ensures ',' !in tags[i] && (tags[i] == [] || IsCleanTag(tags[i])) {
      TrimAddsNothing(pieces[i], ',');
      Strings.TrimIsInnerPiece(pieces[i]);
    }
  }

  /** A string that neither starts nor ends with whitespace is its own trim. */
  lemma TrimOfTrimmed(s: string)
    requires s == [] || (!Strings.IsWhitespace(s[0]) && !Strings.IsWhitespace(s[|s| - 1]))
    ensures Strings.Trim(s) == s
  {
  }

  /** Joining clean words gives a string that trims to itself. */
  lemma JoinIsTrimmed(tags: seq<string>)
    requires tags != []
    requires forall i :: 0 <= i < |tags| ==> IsCleanTag(tags[i])
    ensures Strings.Trim(Strings.Join(tags, ',')) == Strings.Join(tags, ',')
  {
    var s := Strings.Join(tags, ',');
    var first, last := tags[0], tags[|tags| - 1];
    assert IsCleanTag(first) && IsCleanTag(last);
    Strings.JoinEnds(tags, ',');
    assert s[0] == first[0] by {
      assert s[..|first|] == first;
    }
    assert s[|s| - 1] == last[|last| - 1] by {
      assert s[|s| - |last|..] == last;
    }
    TrimOfTrimmed(s);
  }

  /** An answer in the requested form, up to three clean words joined by commas,
      parses back to those words. */
  lemma ParseCompletionOfList(tags: seq<string>)
    requires 1 <= |tags| <= TagCount
    requires forall i :: 0 <= i < |tags| ==> IsCleanTag(tags[i])
    ensures ParseCompletion(Strings.Join(tags, ',')) == tags
  {
    CleanTagsTrimmed(tags);
    var s := Strings.Join(tags, ',');
    JoinIsTrimmed(tags);
    Strings.JoinSplit(tags, ',');
    assert Strings.Split(Strings.Trim(s), ',') == tags;
  }

  /** Trimming clean words one by one changes none of them. */
  lemma CleanTagsTrimmed(tags: seq<string>)
    requires forall i :: 0 <= i < |tags| ==> IsCleanTag(tags[i])
    ensures TrimEach(tags) == tags
  {
    forall i | 0 <= i < |tags| ensures Strings.Trim(tags[i]) == tags[i] {
      TrimOfTrimmed(tags[i]);
    }
  }

  /** The handler's catch branch: read the body again and fall back on its text, or
      answer the last-resort tags when that read fails too. The try block has always
      read the body already, so here the read rejects and the answer is the
      last-resort tags. */
  method Recover(request: Request) returns (r: TagResponse)
    modifies request`bodyUsed
    ensures old(request.bodyUsed) ==> r == TagsResponse(LastResortTags)
    ensures !old(request.bodyUsed) && request.payload.Body? && request.payload.text.Some? ==>
      r.TagsResponse? && IsFallbackFor(r.tags, request.payload.text.value)
    ensures !old(request.bodyUsed) && !(request.payload.Body? && request.payload.text.Some?) ==>
      r == TagsResponse(LastResortTags)
    ensures request.bodyUsed
  {
    var reread := request.Json();
    if reread.Body? && reread.text.Some? {
      var tags := GenerateFallbackTags(reread.text.value);
      r := TagsResponse(tags);
    } else {
      r := TagsResponse(LastResortTags);
    }
  }

  /** `POST(request)`: apiKey is the configured key and completion the model call's
      outcome. The first read of the body is the payload of an unused request; every
      failure reaching the catch branch answers the last-resort tags. */
  method HandleRequest(request: Request, apiKey: Option<string>, completion: Completion)
    returns (r: TagResponse)
    modifies request`bodyUsed
    ensures var body := if old(request.bodyUsed) then Unreadable else request.payload;
      (body.Body? && !HasText(body.text) ==> r == Error(400, "Text is required")) &&
      (body.Body? && HasText(body.text) && !KeyConfigured(apiKey) ==>
        r.TagsResponse? && IsFallbackFor(r.tags, body.text.value)) &&
      (body.Body? && HasText(body.text) && KeyConfigured(apiKey) && completion.Answer? ==>
        r == TagsResponse(ParseCompletion(completion.content))) &&
      (body.Unreadable? || (HasText(body.text) && KeyConfigured(apiKey) && completion.CallFailed?) ==>
        r == TagsResponse(LastResortTags))
    ensures request.bodyUsed
  {
    var body := request.Json();
    if body.Unreadable? {
      r := Recover(request);
    } else if !HasText(body.text) {
      r := Error(400, "Text is required");
    } else if !KeyConfigured(apiKey) {
      var tags := GenerateFallbackTags(body.text.value);
      r := TagsResponse(tags);
    } else if completion.CallFailed? {
      r := Recover(request);
    } else {
      r := TagsResponse(ParseCompletion(completion.content));
    }
  }

  /** The route as the server invokes it, on a fresh request whose body is body:
      every failure that reaches the catch branch answers the last-resort tags. */
  method Post(body: RequestBody, apiKey: Option<string>, completion: Completion) returns (r: TagResponse)
    ensures body.Body? && !HasText(body.text) ==> r == Error(400, "Text is required")
    ensures body.Body? && HasText(body.text) && !KeyConfigured(apiKey) ==>
      r.TagsResponse? && IsFallbackFor(r.tags, body.text.value)
    ensures body.Body? && HasText(body.text) && KeyConfigured(apiKey) && completion.Answer? ==>
      r == TagsResponse(ParseCompletion(completion.content))
    ensures body.Unreadable? || (HasText(body.text) && KeyConfigured(apiKey) && completion.CallFailed?) ==>
      r == TagsResponse(LastResortTags)
  {
    var request := new Request(body);
    r := HandleRequest(request, apiKey, completion);
  }
}
