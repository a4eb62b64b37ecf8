/** The onboarding page, pages/ContextSetup.tsx: a free-text description is sent to the
    model, the JSON it answers is cleaned of Markdown fences and parsed, and the business
    context built from it is saved, handed to the application and navigated away from.
    The model's answer, `JSON.parse` and the clock are inputs. */
module ContextSetup {
  import opened Wrappers
  import opened Types
  import Text
  import Gemini
  import Storage

  // ---------------------------------------------------------------- cleaning the answer

  /** `s.replace(/pat/g, '')` for a literal pattern: matches are found left to right and
      do not overlap. */
  function RemoveAll(s: string, pat: string): (r: string)
    requires pat != []
    ensures |r| <= |s|
    decreases |s|
  {
    if |s| < |pat| then s
    else if s[..|pat|] == pat then RemoveAll(s[|pat|..], pat)
    else [s[0]] + RemoveAll(s[1..], pat)
  }

  const Fence: string := "```"
  const JsonFence: string := "```json"

  /** The answer with the `json` fences, then the bare fences, removed, and trimmed. */
  function CleanJson(s: string): string {
    Text.Trim(RemoveAll(RemoveAll(s, JsonFence), Fence))
  }

  /** Three backticks start at `i`. */
  predicate FenceAt(s: string, i: nat) {
    i + 3 <= |s| && s[i] == '`' && s[i + 1] == '`' && s[i + 2] == '`'
  }

  predicate HasFence(s: string) {
    exists i: nat :: i < |s| && FenceAt(s, i)
  }

  /** The number of backticks `s` starts with. */
  function LeadingTicks(s: string): (n: nat)
    ensures n <= |s|
  {
    if s == [] || s[0] != '`' then 0 else 1 + LeadingTicks(s[1..])
  }

  /** `LeadingTicks` counts exactly the backticks before the first other character. */
  lemma {:induction false} LeadingTicksRun(s: string)
    ensures forall i :: 0 <= i < LeadingTicks(s) ==> s[i] == '`'
    ensures LeadingTicks(s) < |s| ==> s[LeadingTicks(s)] != '`'
    decreases |s|
  {
    if s != [] && s[0] == '`' {
      LeadingTicksRun(s[1..]);
      forall i | 1 <= i < LeadingTicks(s) ensures s[i] == '`' {
        assert s[i] == s[1..][i - 1];
      }
      if LeadingTicks(s) < |s| {
        assert s[LeadingTicks(s)] == s[1..][LeadingTicks(s[1..])];
      }
    }
  }

  lemma FenceStart(s: string)
    requires |s| >= 3
    ensures s[..3] == Fence <==> FenceAt(s, 0)
  {
    if FenceAt(s, 0) {
      assert s[..3] == Fence;
    }
  }

  /** `n % 3`, by repeated subtraction. */
  function Mod3(n: nat): (r: nat)
    ensures r < 3
  {
    if n < 3 then n else Mod3(n - 3)
  }

  lemma {:induction false} Mod3IsRemainder(n: nat)
    ensures Mod3(n) == n % 3
    decreases n
  {
    if n >= 3 {
      Mod3IsRemainder(n - 3);
    }
  }

  /** One step of the fence removal. */
  lemma RemoveFenceStep(s: string)
    requires |s| >= 3
    ensures FenceAt(s, 0) ==> RemoveAll(s, Fence) == RemoveAll(s[3..], Fence)
    ensures !FenceAt(s, 0) ==> RemoveAll(s, Fence) == [s[0]] + RemoveAll(s[1..], Fence)
  {
    FenceStart(s);
  }

  /** A tick in front of a text adds one to its leading run. */
  lemma TickInFront(c: char, t: string)
    ensures c == '`' ==> LeadingTicks([c] + t) == 1 + LeadingTicks(t)
    ensures c != '`' ==> LeadingTicks([c] + t) == 0
  {
    assert ([c] + t)[1..] == t;
  }

  /** Within a run of backticks the scan removes three at a time, so the run the text
      starts with keeps its length modulo 3. */
  lemma {:induction false} RemoveFencesTicks(s: string)
    ensures LeadingTicks(RemoveAll(s, Fence)) == Mod3(LeadingTicks(s))
    decreases |s|
  {
    if |s| < 3 {
      assert RemoveAll(s, Fence) == s;
    } else if FenceAt(s, 0) {
      RemoveFencesTicks(s[3..]);
      TicksAfterFence(s);
    } else {
      if s[0] == '`' {
        RemoveFencesTicks(s[1..]);
      }
      TicksWithoutFence(s);
    }
  }

  /** The step of `RemoveFencesTicks` at a fence. */
  lemma TicksAfterFence(s: string)
    requires FenceAt(s, 0)
    requires LeadingTicks(RemoveAll(s[3..], Fence)) == Mod3(LeadingTicks(s[3..]))
    ensures LeadingTicks(RemoveAll(s, Fence)) == Mod3(LeadingTicks(s))
  {
    RemoveFenceStep(s);
    LeadingTicksDrop(s);
  }

  /** The step of `RemoveFencesTicks` at a character that does not start a fence. */
  lemma TicksWithoutFence(s: string)
    requires |s| >= 3 && !FenceAt(s, 0)
    requires s[0] == '`' ==> LeadingTicks(RemoveAll(s[1..], Fence)) == Mod3(LeadingTicks(s[1..]))
    ensures LeadingTicks(RemoveAll(s, Fence)) == Mod3(LeadingTicks(s))
  {
    RemoveFenceStep(s);
    ShortRun(s);
    TickInFront(s[0], RemoveAll(s[1..], Fence));
  }

  /** A text that does not start with a fence starts with at most two backticks. */
  lemma ShortRun(s: string)
    requires !FenceAt(s, 0)
    ensures LeadingTicks(s) <= 2
  {
    LeadingTicksRun(s);
  }

  /** Removing the fences leaves no fence: runs of backticks only shrink below three, and
      nothing else is removed, so no run grows. */
  lemma {:induction false} RemoveFencesShape(s: string)
    ensures !HasFence(RemoveAll(s, Fence))
    decreases |s|
  {
    var r := RemoveAll(s, Fence);
    if |s| >= 3 {
      FenceStart(s);
      if FenceAt(s, 0) {
        RemoveFencesShape(s[3..]);
      } else {
        var tail := RemoveAll(s[1..], Fence);
        RemoveFencesShape(s[1..]);
        RemoveFencesTicks(s[1..]);
        assert r == [s[0]] + tail;
        forall i: nat | i + 3 <= |r| ensures !FenceAt(r, i) {
          if i > 0 {
            assert r[i] == tail[i - 1] && r[i + 1] == tail[i] && r[i + 2] == tail[i + 1];
            assert !FenceAt(tail, i - 1);
          } else if s[0] == '`' {
            ShortRun(s);
            assert LeadingTicks(s) == 1 + LeadingTicks(s[1..]);
            assert LeadingTicks(tail) == LeadingTicks(s[1..]) < 2;
            LeadingTicksRun(tail);
            assert r[1] == tail[0] && r[2] == tail[1];
          }
        }
      }
    }
  }

  /** Three leading backticks less after dropping a fence. */
  lemma LeadingTicksDrop(s: string)
    requires FenceAt(s, 0)
    ensures LeadingTicks(s) == 3 + LeadingTicks(s[3..])
  {
    var s1 := s[1..];
    var s2 := s1[1..];
    assert s2[1..] == s[3..];
    assert s1[0] == '`' && s2[0] == '`';
    assert LeadingTicks(s) == 1 + LeadingTicks(s1);
    assert LeadingTicks(s1) == 1 + LeadingTicks(s2);
    assert LeadingTicks(s2) == 1 + LeadingTicks(s2[1..]);
  }

  /** A piece of a text without a fence has no fence. */
  lemma InfixNoFence(s: string, i: nat, j: nat)
    requires i <= j <= |s| && !HasFence(s)
    ensures !HasFence(s[i..j])
  {
    var t := s[i..j];
    forall k: nat | FenceAt(t, k) ensures false {
      assert FenceAt(s, i + k);
    }
  }

  /** The cleaned answer contains no fence and has no white space at either end. */
  lemma CleanJsonShape(s: string)
    ensures !HasFence(CleanJson(s))
    ensures var c := CleanJson(s); c == [] || (!Text.IsSpace(c[0]) && !Text.IsSpace(c[|c| - 1]))
  {
    var removed := RemoveAll(RemoveAll(s, JsonFence), Fence);
    RemoveFencesShape(RemoveAll(s, JsonFence));
    Text.TrimIsInfix(removed);
    var i, j :| 0 <= i <= j <= |removed| && Text.Trim(removed) == removed[i..j];
    InfixNoFence(removed, i, j);
  }

  /** No backtick anywhere in the text. */
  predicate NoTick(s: string) {
    forall i :: 0 <= i < |s| ==> s[i] != '`'
  }

  lemma NoTickTail(s: string)
    requires s != [] && NoTick(s)
    ensures NoTick(s[1..])
  {
    forall i | 0 <= i < |s| - 1 ensures s[1..][i] != '`' {
      assert s[1..][i] == s[i + 1];
    }
  }

  /** A pattern starting with a backtick matches nowhere in a text without backticks, so
      the removal passes such a text through to what follows it. */
  lemma {:induction false} RemoveAllSkips(body: string, rest: string, pat: string)
    requires pat != [] && pat[0] == '`' && NoTick(body)
    ensures RemoveAll(body + rest, pat) == body + RemoveAll(rest, pat)
    decreases |body|
  {
    var s := body + rest;
    if body == [] {
      assert s == rest;
    } else if |s| < |pat| {
      assert RemoveAll(s, pat) == s && RemoveAll(rest, pat) == rest;
    } else {
      NoTickTail(body);
      RemoveAllSkips(body[1..], rest, pat);
      SkipStep(body, rest, pat);
    }
  }

  /** The step of `RemoveAllSkips` at a character that is not a backtick. */
  lemma SkipStep(body: string, rest: string, pat: string)
    requires pat != [] && pat[0] == '`' && body != [] && body[0] != '`' && |body + rest| >= |pat|
    requires RemoveAll(body[1..] + rest, pat) == body[1..] + RemoveAll(rest, pat)
    ensures RemoveAll(body + rest, pat) == body + RemoveAll(rest, pat)
  {
    var s := body + rest;
    var t := body[1..] + rest;
    assert s[1..] == t && s[0] == body[0];
    RemoveAllMiss(s, t, pat);
    ConsAppend(body[0], body[1..], RemoveAll(rest, pat), body);
  }

  lemma ConsAppend(c: char, x: string, y: string, body: string)
    requires body != [] && body[0] == c && x == body[1..]
    ensures [c] + (x + y) == body + y
  {
    assert [c] + x == body;
  }

  /** Where the pattern does not match, the first character is kept and the scan moves on. */
  lemma RemoveAllMiss(s: string, t: string, pat: string)
    requires pat != [] && |s| >= |pat| && s[0] != pat[0] && t == s[1..]
    ensures RemoveAll(s, pat) == [s[0]] + RemoveAll(t, pat)
  {
    assert s[..|pat|][0] != pat[0];
  }

  /** The removal keeps a first character that is not a backtick. */
  lemma RemoveAllKeepsFirst(s: string, pat: string)
    requires pat != [] && pat[0] == '`' && s != [] && s[0] != '`'
    ensures RemoveAll(s, pat) != [] && RemoveAll(s, pat)[0] == s[0]
  {
    if |s| >= |pat| {
      assert s[..|pat|][0] != pat[0];
    }
  }

  /** An answer without backticks is only trimmed. */
  lemma CleanJsonPlain(s: string)
    requires NoTick(s)
    ensures CleanJson(s) == Text.Trim(s)
  {
    RemoveAllSkips(s, [], JsonFence);
    RemoveAllSkips(s, [], Fence);
    assert s + [] == s;
  }

  /** The usual fenced answer, "```json", the JSON text, "```": the cleanup gives the
      trimmed JSON text. */
  lemma CleanJsonFenced(body: string)
    requires NoTick(body)
    ensures CleanJson(JsonFence + body + Fence) == Text.Trim(body)
  {
    var s := JsonFence + body + Fence;
    assert s[..|JsonFence|] == JsonFence && s[|JsonFence|..] == body + Fence;
    RemoveAllSkips(body, Fence, JsonFence);
    RemoveAllSkips(body, Fence, Fence);
    assert Fence[..|Fence|] == Fence && Fence[|Fence|..] == [];
    assert body + [] == body;
  }

  /** The cleanup keeps a first character that is neither a backtick nor white space. */
  lemma CleanJsonKeepsFirst(s: string)
    requires s != [] && s[0] != '`' && !Text.IsSpace(s[0])
    ensures CleanJson(s) != [] && CleanJson(s)[0] == s[0]
  {
    var a := RemoveAll(s, JsonFence);
    RemoveAllKeepsFirst(s, JsonFence);
    var b := RemoveAll(a, Fence);
    RemoveAllKeepsFirst(a, Fence);
    Text.TrimKeepsFirst(b);
  }

  // ---------------------------------------------------------------- building the context

  /** What `JSON.parse` gave: it threw, `null`, a value without fields (a number, a string,
      a boolean or an array), or an object with its string-valued members. */
  datatype Parsed = Invalid | Null | NoFields | Object(fields: map<string, string>)

  /** `data.<key> || default`. */
  function FieldOr(fields: map<string, string>, key: string, default: string): (r: string)
    ensures r == default || (key in fields && r == fields[key])
    ensures r == default <== key !in fields || fields[key] == ""
    ensures default != "" ==> r != ""
  {
    if key in fields && fields[key] != "" then fields[key] else default
  }

  /** The keys the extraction prompt asks for, and the defaults used when one is missing
      or empty. */
  const NameKey: string := "name"
  const NicheKey: string := "niche"
  const AudienceKey: string := "targetAudience"
  const OfferKey: string := "coreOfferIdea"
  const PriceKey: string := "pricePointTarget"
  const StruggleKey: string := "currentStruggle"
  const DefaultName: string := "My Business"
  const DefaultNiche: string := "General"
  const DefaultAudience: string := "Clients"
  const DefaultOffer: string := "Services"
  const DefaultPrice: string := "$2000"
  const DefaultStruggle: string := "Growth"

  /** The context `handleSubmit` builds from the parsed fields. */
  function NewContext(id: string, fields: map<string, string>): BusinessContext {
    BusinessContext(
      id,
      FieldOr(fields, NameKey, DefaultName),
      FieldOr(fields, NicheKey, DefaultNiche),
      FieldOr(fields, AudienceKey, DefaultAudience),
      FieldOr(fields, OfferKey, DefaultOffer),
      FieldOr(fields, PriceKey, DefaultPrice),
      FieldOr(fields, StruggleKey, DefaultStruggle))
  }

  /** Every field of a new context is filled: the id is the clock's digits and every other
      field is the parsed text when that is not empty, else its default. */
  lemma NewContextFilled(clock: nat, fields: map<string, string>)
    ensures var c := NewContext(Text.NatToString(clock), fields);
      && c.id != "" && c.name != "" && c.niche != "" && c.targetAudience != ""
      && c.coreOfferIdea != "" && c.pricePointTarget != "" && c.currentStruggle != ""
    ensures var c := NewContext(Text.NatToString(clock), map[]);
      c == BusinessContext(Text.NatToString(clock), "My Business", "General", "Clients", "Services", "$2000", "Growth")
  {
  }

  /** The context the parsed answer yields: none when parsing threw or gave `null` (reading
      `data.name` throws), all defaults when it has no fields. */
  function ContextOf(id: string, data: Parsed): (r: Option<BusinessContext>)
    ensures r.None? <==> data.Invalid? || data.Null?
    ensures data.NoFields? ==> r == Some(NewContext(id, map[]))
    ensures data.Object? ==> r == Some(NewContext(id, data.fields))
  {
    match data
    case Invalid => None
    case Null => None
    case NoFields => Some(NewContext(id, map[]))
    case Object(fields) => Some(NewContext(id, fields))
  }

  /** The extraction prompt's text before and after the description. */
  const ExtractionHead: string :=
    "\n        Analyze the following business description and extract these specific fields into a JSON object:" +
    "\n        - name: (Suggest a creative, short, professional name for this product/business)" +
    "\n        - niche: (The specific market segment)" +
    "\n        - targetAudience: (The specific person buying)" +
    "\n        - coreOfferIdea: (Concise description of the product)" +
    "\n        - pricePointTarget: (The price mentioned, or a suggested high-ticket price if unsure)" +
    "\n        - currentStruggle: (The main problem they are facing)" +
    "\n\n        Description: \""
  const ExtractionTail: string :=
    "\"\n\n        Return ONLY the raw JSON object. Do not use Markdown code blocks.\n      "

  /** The extraction prompt around the description. */
  function ExtractionPrompt(description: string): string {
    ExtractionHead + description + ExtractionTail
  }

  /** The description is quoted verbatim between the fixed instructions. */
  lemma ExtractionPromptQuotes(description: string)
    ensures var p := ExtractionPrompt(description);
      && |p| == |ExtractionHead| + |description| + |ExtractionTail|
      && p[|ExtractionHead|..|ExtractionHead| + |description|] == description
  {
  }

  const ExtractionInstruction: string := "You are a data extraction bot. Output valid JSON only."
  const AnalyzeError: string := "Could not analyze the text. Please try again or check your API Key."

  /** The characters a JSON text may start with: JSON white space, or the first character
      of an object, an array, a string, a number, `true`, `false` or `null`. */
  predicate JsonLead(c: char) {
    c == ' ' || c == '\t' || c == '\n' || c == '\r' || c == '{' || c == '[' || c == '"' || c == '-' ||
    ('0' <= c <= '9') || c == 't' || c == 'f' || c == 'n'
  }

  /** What is assumed of `JSON.parse`: it throws on the empty text and on a text that starts
      with any other character. */
  ghost predicate RejectsNonJson(parse: string -> Parsed) {
    forall t :: (t == [] || !JsonLead(t[0])) ==> parse(t).Invalid?
  }

  /** `generateText`'s two fixed answers, the error text when the client or the call fails
      and the fallback text when the response is empty, never yield a context: cleaned they
      still start with 'E' and 'N', on which `JSON.parse` throws. */
  lemma FixedAnswersAreNotJson(apiKey: Option<string>, call: Gemini.Call<Option<string>>, parse: string -> Parsed, clock: nat)
    requires RejectsNonJson(parse)
    requires Gemini.GetClient(apiKey).Err? || call.Rejected? || call.response.None? || call.response.value == ""
    ensures Extracted(apiKey, call, parse, clock).None?
  {
    var answer := Gemini.GenerateText(apiKey, call);
    assert answer == Gemini.ErrorText || answer == Gemini.NoResponseText;
    FixedAnswersStart();
    NotJsonStart(answer, parse);
  }

  lemma FixedAnswersStart()
    ensures Gemini.ErrorText != [] && Gemini.ErrorText[0] == 'E'
    ensures Gemini.NoResponseText != [] && Gemini.NoResponseText[0] == 'N'
  {
  }

  /** An answer that starts with a character no JSON text starts with does not parse. */
  lemma NotJsonStart(answer: string, parse: string -> Parsed)
    requires RejectsNonJson(parse)
    requires answer != [] && answer[0] != '`' && !Text.IsSpace(answer[0]) && !JsonLead(answer[0])
    ensures parse(CleanJson(answer)).Invalid?
  {
    CleanJsonKeepsFirst(answer);
  }

  // ---------------------------------------------------------------- the page

  /** What the page does outside its own state. `GenerateTextCall` is the call of
      `generateText`, not a request on the network: the service makes none without a key. */
  datatype Effect =
    | GenerateTextCall(prompt: string, systemInstruction: string)
    | ContextSet(context: BusinessContext)
    | Navigate(path: string)

  /** The context a submission yields, from the model's answer. */
  function Extracted(apiKey: Option<string>, call: Gemini.Call<Option<string>>, parse: string -> Parsed, clock: nat): Option<BusinessContext> {
    ContextOf(Text.NatToString(clock), parse(CleanJson(Gemini.GenerateText(apiKey, call))))
  }

  /** The model's answer, cleaned and parsed, turned into a context. */
  method Analyze(apiKey: Option<string>, call: Gemini.Call<Option<string>>, parse: string -> Parsed, clock: nat)
    returns (newContext: Option<BusinessContext>)
    ensures newContext == Extracted(apiKey, call, parse, clock)
  {
    var jsonStr := Gemini.GenerateText(apiKey, call);
    var cleanedJsonStr := CleanJson(jsonStr);
    var data := parse(cleanedJsonStr);
    newContext := ContextOf(Text.NatToString(clock), data);
  }

  class ContextSetupPage {
    var description: string
    var isAnalyzing: bool
    var error: Option<string>
    var effects: seq<Effect>

    constructor (initialDescription: string)
      ensures description == initialDescription && !isAnalyzing && error == None && effects == []
    {
      description := initialDescription;
      isAnalyzing := false;
      error := None;
      effects := [];
    }

    /** Typing in the text area. */
    method SetDescription(text: string)
      modifies this
      ensures description == text && isAnalyzing == old(isAnalyzing) && error == old(error)
      ensures effects == old(effects)
    {
      description := text;
    }

    /** Submitting the form. The text area is `required`, so an empty description never
        reaches `handleSubmit`. Otherwise the answer is cleaned, parsed and turned into a
        context, which is saved first, then handed to the application (`setContext`),
        and then the page navigates to '/'. Any failure sets the error message, hands
        nothing on and stays; the spinner always ends off. */
    method HandleSubmit(apiKey: Option<string>, call: Gemini.Call<Option<string>>,
                        parse: string -> Parsed, clock: nat, store: Storage.Database)
      requires store.Valid() && !isAnalyzing
      modifies this, store
      ensures store.Valid() && !isAnalyzing && description == old(description)
      ensures store.history == old(store.history)
      ensures old(description) == "" ==>
        error == old(error) && effects == old(effects) && store.contexts == old(store.contexts)
      ensures old(description) != "" ==>
        var context := Extracted(apiKey, call, parse, clock);
        var called := old(effects) + [GenerateTextCall(ExtractionPrompt(old(description)), ExtractionInstruction)];
        if context.Some? && store.supported then
          && store.contexts == [context.value]
          && error == None
          && effects == called + [ContextSet(context.value), Navigate("/")]
        else
          && store.contexts == old(store.contexts)
          && error == Some(AnalyzeError)
          && effects == called
    {
      if description == "" {
        return;
      }
      BeginAnalysis();
      var newContext := Analyze(apiKey, call, parse, clock);
      SaveAnalysed(newContext, store);
    }

    /** `handleSubmit` up to the model call: the spinner starts, the old error is cleared
        and `generateText` is called with the extraction prompt. Whether a request then
        leaves the page is up to `generateText`, which fails first without a key. */
    method BeginAnalysis()
      modifies this
      ensures isAnalyzing && error == None && description == old(description)
      ensures effects == old(effects) + [GenerateTextCall(ExtractionPrompt(old(description)), ExtractionInstruction)]
    {
      isAnalyzing := true;
      error := None;
      effects := effects + [GenerateTextCall(ExtractionPrompt(description), ExtractionInstruction)];
    }

    /** `handleSubmit` after the model call: a context is saved, handed on and followed by
        navigation to '/'; no context, or a rejected save, sets the error message. */
    method SaveAnalysed(newContext: Option<BusinessContext>, store: Storage.Database)
      requires store.Valid()
      modifies this, store
      ensures store.Valid() && !isAnalyzing && description == old(description)
      ensures store.history == old(store.history)
      ensures newContext.Some? && store.supported ==>
        && store.contexts == [newContext.value]
        && error == old(error)
        && effects == old(effects) + [ContextSet(newContext.value), Navigate("/")]
      ensures newContext.None? || !store.supported ==>
        && store.contexts == old(store.contexts)
        && error == Some(AnalyzeError)
        && effects == old(effects)
    {
      if newContext.None? {
        error := Some(AnalyzeError);
        isAnalyzing := false;
        return;
      }
      var saved := store.SaveContext(newContext.value);
      if saved.Err? {
        error := Some(AnalyzeError);
        isAnalyzing := false;
        return;
      }
      effects := effects + [ContextSet(newContext.value), Navigate("/")];
      isAnalyzing := false;
    }
  }
}
