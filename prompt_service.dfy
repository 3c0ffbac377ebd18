/** Prompt construction for the image model and the handling of its replies:
    the prompt template over the session's selections, the scan of the reply
    parts for the first inline image, the `data:` URL that image becomes, the
    parser that splits such a URL again before a refinement, and the two
    service operations (generate, refine) around one opaque model call each. */
module PromptService {
  import opened Wrappers
  import opened Strings
  import opened Types

  /** The fixed style directive, kept in short runs of words that single
      spaces join back into the paragraph. */
  const BasePromptPhrases: seq<string> := [
    "Transforme esta fotografia de alimento",
    "em uma imagem ultra profissional",
    "em estilo editorial gastronômico.",
    "Aplique iluminação de estúdio suave",
    "e difusa, realçando textura, brilho",
    "e frescor do alimento. Melhore",
    "as cores para torná-las mais vivas,",
    "naturais e apetitosas. Ajuste o",
    "enquadramento para composição perfeita,",
    "seguindo regras de fotografia gastronômica",
    "(como regra dos terços e foco seletivo).",
    "Crie um cenário sofisticado com",
    "ambientação realista, usando fundo",
    "com profundidade, elementos de",
    "mesa minimalistas e tons harmônicos",
    "que valorizem o prato. Aplique",
    "correção de perspectiva, nitidez",
    "avançada e tratamento premium.",
    "Mantenha o prato como protagonista",
    "absoluto. Resultado final: fotografia",
    "digna de revista gourmet, extremamente",
    "nítida, estética, elegante e profissional."
  ]

  /** The separator between the runs of words of a paragraph. */
  const Space: string := " "

  const BasePromptCore: string := Join(BasePromptPhrases, Space)

  /** The instruction that closes every prompt, in runs of words. */
  const ClosingPhrases: seq<string> := [
    "Instruction: Generate a high-quality,",
    "photorealistic image based on the",
    "input image and the description",
    "above. Ensure the main food item",
    "remains the protagonist and looks",
    "exactly as described. Pay special",
    "attention to the user's custom",
    "instructions if provided."
  ]

  const ClosingInstruction: string := Join(ClosingPhrases, Space)

  const ExtraInstructionsLabel: string := "- INSTRUÇÕES EXTRAS DO USUÁRIO: "

  /** The line break plus indentation that separates the lines of the
      template literal. */
  const LineBreak: string := "\n    "

  // ---------------------------------------------------------------------
  // The prompt
  // ---------------------------------------------------------------------

  /** `enhancements.filter(e => e.selected).map(e => e.label)` */
  function SelectedLabels(opts: seq<EnhancementOption>): seq<string>
  {
    if |opts| == 0 then []
    else (if opts[0].selected then [opts[0].labelText] else []) + SelectedLabels(opts[1..])
  }

  /** Filtering distributes over concatenation, so the labels keep the order
      of the list they come from. */
  lemma {:induction false} SelectedLabelsAppend(a: seq<EnhancementOption>, b: seq<EnhancementOption>)
    ensures SelectedLabels(a + b) == SelectedLabels(a) + SelectedLabels(b)
  {
    if |a| == 0 {
      assert a + b == b;
    } else {
      assert (a + b)[1..] == a[1..] + b;
      SelectedLabelsAppend(a[1..], b);
    }
  }

  /** A label is in the result exactly when some selected option carries it. */
  lemma {:induction false} SelectedLabelsMembership(opts: seq<EnhancementOption>, l: string)
    ensures l in SelectedLabels(opts) <==>
            exists i :: 0 <= i < |opts| && opts[i].selected && opts[i].labelText == l
  {
    if |opts| > 0 {
      SelectedLabelsMembership(opts[1..], l);
      if l in SelectedLabels(opts[1..]) {
        var i :| 0 <= i < |opts[1..]| && opts[1..][i].selected && opts[1..][i].labelText == l;
        assert opts[i + 1] == opts[1..][i];
      }
      if i :| 0 < i < |opts| && opts[i].selected && opts[i].labelText == l {
        assert opts[1..][i - 1] == opts[i];
      }
    }
  }

  /** The result is empty exactly when no option is selected. */
  lemma {:induction false} SelectedLabelsEmpty(opts: seq<EnhancementOption>)
    ensures SelectedLabels(opts) == [] <==> forall i :: 0 <= i < |opts| ==> !opts[i].selected
  {
    if |opts| > 0 {
      SelectedLabelsEmpty(opts[1..]);
      assert forall i :: 1 <= i < |opts| ==> opts[i] == opts[1..][i - 1];
    }
  }

  /** When every option is selected, the result is every label in list order. */
  lemma {:induction false} SelectedLabelsAllSelected(opts: seq<EnhancementOption>)
    requires forall i :: 0 <= i < |opts| ==> opts[i].selected
    ensures |SelectedLabels(opts)| == |opts|
    ensures forall i :: 0 <= i < |opts| ==> SelectedLabels(opts)[i] == opts[i].labelText
  {
    if |opts| > 0 {
      SelectedLabelsAllSelected(opts[1..]);
    }
  }

  /** The "Melhorias Solicitadas" clause: the selected labels joined by ", ". */
  function ActiveEnhancements(opts: seq<EnhancementOption>): string
  {
    Join(SelectedLabels(opts), ", ")
  }

  /** With no option selected the clause is empty; when every label is
      non-empty (as in the catalogue), that is the only way it is empty. */
  lemma ActiveEnhancementsEmpty(opts: seq<EnhancementOption>)
    ensures (forall i :: 0 <= i < |opts| ==> !opts[i].selected) ==> ActiveEnhancements(opts) == ""
    ensures (forall i :: 0 <= i < |opts| ==> opts[i].labelText != "") ==>
            (ActiveEnhancements(opts) == "" <==> forall i :: 0 <= i < |opts| ==> !opts[i].selected)
  {
    SelectedLabelsEmpty(opts);
    JoinEmpty(SelectedLabels(opts), ", ");
    var labels := SelectedLabels(opts);
    if |labels| == 1 && labels[0] == "" {
      SelectedLabelsMembership(opts, "");
    }
  }

  /** `state.selectedFoodType || "alimento"` */
  function ContextName(t: Option<FoodType>): string
  {
    if FoodTypeText(t) != "" then FoodTypeText(t) else "alimento"
  }

  /** The context line names the chosen category, or "alimento" before one is chosen. */
  lemma ContextNameCases(t: Option<FoodType>)
    ensures t.None? ==> ContextName(t) == "alimento"
    ensures t.Some? ==> ContextName(t) == t.value.Label()
  {
  }

  /** The optional line with the user's own instructions. */
  function UserInstructions(description: string): string
  {
    if description != "" then ExtraInstructionsLabel + description else ""
  }

  /** The extra-instructions line is present exactly when the description is
      non-empty, and then it ends with the description itself. */
  lemma UserInstructionsLine(description: string)
    ensures UserInstructions(description) != "" <==> description != ""
    ensures description != "" ==>
      UserInstructions(description)[..|ExtraInstructionsLabel|] == ExtraInstructionsLabel &&
      UserInstructions(description)[|ExtraInstructionsLabel|..] == description
  {
  }

  const ContextLead: string := "[CONTEXTO]: O usuário enviou uma foto de "
  const MainLead: string := "[PROMPT PRINCIPAL]: "
  const DetailsHeader: string := "[DETALHES ESPECÍFICOS]:"
  const FoodTypeLead: string := "- Tipo de Alimento: "
  const EnhancementsLead: string := "- Melhorias Solicitadas: "
  const RatioLead: string := "- Proporção Final: "

  /** The nine lines of the template literal, without their indentation,
      around the two fixed paragraphs `directive` and `closing`. */
  function PromptLinesWith(directive: string, closing: string, s: AppState): seq<string>
  {
    [ ContextLead + ContextName(s.selectedFoodType) + ".",
      MainLead + directive,
      DetailsHeader,
      FoodTypeLead + FoodTypeText(s.selectedFoodType),
      EnhancementsLead + ActiveEnhancements(s.enhancements),
      RatioLead + s.aspectRatio.Value(),
      UserInstructions(s.userDescription),
      "",
      closing ]
  }

  /** The lines of the prompt the service sends. */
  function PromptLines(s: AppState): seq<string>
  {
    PromptLinesWith(BasePromptCore, ClosingInstruction, s)
  }

  /** The template literal as written: its lines separated by indented line
      breaks, opened by a line break with indentation and closed by a line
      break with the indentation of the closing backtick. */
  function Template(lines: seq<string>): string
  {
    LineBreak + Join(lines, LineBreak) + "\n  "
  }

  /** `generatePrompt(state)`: the trimmed template. */
  function GeneratePrompt(s: AppState): string
  {
    Trim(Template(PromptLines(s)))
  }

  /** Two sessions that agree on category, enhancements, proportion and
      description get the same prompt; nothing else in the session matters. */
  lemma GeneratePromptDependsOnSelections(s: AppState, t: AppState)
    requires s.selectedFoodType == t.selectedFoodType && s.enhancements == t.enhancements
    requires s.aspectRatio == t.aspectRatio && s.userDescription == t.userDescription
    ensures GeneratePrompt(s) == GeneratePrompt(t)
  {
  }

  lemma BlankFrames()
    ensures IsBlank(LineBreak) && IsBlank("\n  ")
  {
  }

  /** Lines joined by indented line breaks and framed as the template
      literal frames them trim back to the joined lines, which begin with the
      first line and end with the last. */
  lemma TrimIndentedLines(lines: seq<string>)
    requires |lines| > 1
    requires |lines[0]| > 0 && !IsJsWhitespace(lines[0][0])
    requires |lines[|lines| - 1]| > 0 && !IsJsWhitespace(lines[|lines| - 1][|lines[|lines| - 1]| - 1])
    ensures Trim(Template(lines)) == Join(lines, LineBreak)
    ensures |Join(lines, LineBreak)| >= |lines[0]| + |lines[|lines| - 1]|
    ensures Join(lines, LineBreak)[..|lines[0]|] == lines[0]
    ensures Join(lines, LineBreak)[|Join(lines, LineBreak)| - |lines[|lines| - 1]|..] == lines[|lines| - 1]
  {
    var body := Join(lines, LineBreak);
    var last := lines[|lines| - 1];
    assert body == lines[0] + (LineBreak + Join(lines[1..], LineBreak));
    JoinEndsWithLast(lines, LineBreak);
    assert body == (Join(lines[..|lines| - 1], LineBreak) + LineBreak) + last;
    assert body[|body| - 1] == last[|last| - 1];
    assert IsBlank(LineBreak) && IsBlank("\n  ") by {
      BlankFrames();
    }
    TrimFramed(LineBreak, body, "\n  ");
  }

  /** The first of the lines opens with "[CONTEXTO]". */
  lemma PromptFirstLine(directive: string, closing: string, s: AppState)
    ensures |PromptLinesWith(directive, closing, s)[0]| >= 10
    ensures PromptLinesWith(directive, closing, s)[0][..10] == "[CONTEXTO]"
  {
    var x := ContextName(s.selectedFoodType) + ".";
    assert PromptLinesWith(directive, closing, s)[0] == ContextLead + x;
    PrefixOfConcat(ContextLead, x, 10);
  }

  /** Whatever the two fixed paragraphs are, as long as the closing one does
      not end in whitespace, trimming removes exactly the template's framing;
      the result starts with "[CONTEXTO]" and ends with the closing paragraph. */
  lemma PromptLayoutWith(directive: string, closing: string, s: AppState, p: string)
    requires |closing| > 0 && !IsJsWhitespace(closing[|closing| - 1])
    requires p == Join(PromptLinesWith(directive, closing, s), LineBreak)
    ensures Trim(Template(PromptLinesWith(directive, closing, s))) == p
    ensures |p| >= 10 + |closing|
    ensures p[..10] == "[CONTEXTO]"
    ensures EndsWith(p, closing)
  {
    var lines := PromptLinesWith(directive, closing, s);
    PromptFirstLine(directive, closing, s);
    assert lines[0][0] == lines[0][..10][0];
    TrimIndentedLines(lines);
    PrefixOfPrefix(p, |lines[0]|, 10);
  }

  /** Whatever the two fixed paragraphs are, the joined lines mention the
      context line, the directive, the category line, the enhancement clause,
      the proportion line and, when there is one, the user's description. */
  lemma PromptMentionsWith(directive: string, closing: string, s: AppState)
    ensures var p := Join(PromptLinesWith(directive, closing, s), LineBreak);
      && Contains(p, ContextLead + ContextName(s.selectedFoodType) + ".")
      && Contains(p, directive)
      && Contains(p, FoodTypeLead + FoodTypeText(s.selectedFoodType))
      && Contains(p, EnhancementsLead + ActiveEnhancements(s.enhancements))
      && Contains(p, RatioLead + s.aspectRatio.Value())
      && (s.userDescription != "" ==> Contains(p, ExtraInstructionsLabel + s.userDescription))
  {
    var lines := PromptLinesWith(directive, closing, s);
    var p := Join(lines, LineBreak);
    JoinContainsElement(lines, LineBreak, 0);
    JoinContainsElement(lines, LineBreak, 1);
    ContainsSuffix(MainLead, directive);
    ContainsTransitive(p, lines[1], directive);
    JoinContainsElement(lines, LineBreak, 3);
    JoinContainsElement(lines, LineBreak, 4);
    JoinContainsElement(lines, LineBreak, 5);
    JoinContainsElement(lines, LineBreak, 6);
  }

  /** The closing instruction ends with a full stop. */
  lemma ClosingEndsWithPeriod()
    ensures |ClosingInstruction| > 0 && ClosingInstruction[|ClosingInstruction| - 1] == '.'
  {
    // Without this step the solver expands the whole closing literal.
    JoinEndsWithLast(ClosingPhrases, Space);
  }

  /** Trimming removes exactly the template's framing: the prompt is its nine
      lines joined by line breaks; it starts with "[CONTEXTO]" and ends with
      the closing instruction. */
  lemma GeneratePromptLayout(s: AppState)
    ensures GeneratePrompt(s) == Join(PromptLines(s), LineBreak)
    ensures |GeneratePrompt(s)| >= 10 + |ClosingInstruction|
    ensures GeneratePrompt(s)[..10] == "[CONTEXTO]"
    ensures EndsWith(GeneratePrompt(s), ClosingInstruction)
  {
    ClosingEndsWithPeriod();
    PromptLayoutWith(BasePromptCore, ClosingInstruction, s, Join(PromptLines(s), LineBreak));
  }

  /** What the prompt always mentions: the context line with the category
      (or "alimento"), the fixed style directive, the category label, the
      clause of selected enhancement labels, the proportion and, when there
      is one, the user's description. */
  lemma GeneratePromptMentions(s: AppState)
    ensures Contains(GeneratePrompt(s), ContextLead + ContextName(s.selectedFoodType) + ".")
    ensures Contains(GeneratePrompt(s), BasePromptCore)
    ensures Contains(GeneratePrompt(s), FoodTypeLead + FoodTypeText(s.selectedFoodType))
    ensures Contains(GeneratePrompt(s), EnhancementsLead + ActiveEnhancements(s.enhancements))
    ensures Contains(GeneratePrompt(s), RatioLead + s.aspectRatio.Value())
    ensures s.userDescription != "" ==> Contains(GeneratePrompt(s), ExtraInstructionsLabel + s.userDescription)
  {
    GeneratePromptLayout(s);
    PromptMentionsWith(BasePromptCore, ClosingInstruction, s);
  }

  /** The clause of the default catalogue names all six default labels. */
  lemma DefaultClauseNamesAll()
    ensures forall i :: 0 <= i < 6 ==> Contains(ActiveEnhancements(DefaultEnhancements), DefaultEnhancements[i].labelText)
  {
    SelectedLabelsAllSelected(DefaultEnhancements);
    forall i | 0 <= i < 6
      ensures Contains(ActiveEnhancements(DefaultEnhancements), DefaultEnhancements[i].labelText)
    {
      JoinContainsElement(SelectedLabels(DefaultEnhancements), ", ", i);
    }
  }

  /** The scenario of a pizza photo with the default catalogue and a square
      frame: the prompt names "Pizza", "1:1" and all six default labels. */
  lemma PizzaPromptScenario(s: AppState)
    requires s.selectedFoodType == Some(Pizza) && s.aspectRatio == Square
    requires s.enhancements == DefaultEnhancements
    ensures Contains(GeneratePrompt(s), "Pizza")
    ensures Contains(GeneratePrompt(s), "1:1")
    ensures forall i :: 0 <= i < 6 ==> Contains(GeneratePrompt(s), DefaultEnhancements[i].labelText)
  {
    var p := GeneratePrompt(s);
    GeneratePromptMentions(s);
    ContainsSuffix(FoodTypeLead, "Pizza");
    ContainsTransitive(p, FoodTypeLead + "Pizza", "Pizza");
    ContainsSuffix(RatioLead, "1:1");
    ContainsTransitive(p, RatioLead + "1:1", "1:1");
    var enh := ActiveEnhancements(DefaultEnhancements);
    ContainsSuffix(EnhancementsLead, enh);
    ContainsTransitive(p, EnhancementsLead + enh, enh);
    DefaultClauseNamesAll();
    forall i | 0 <= i < 6 ensures Contains(p, DefaultEnhancements[i].labelText) {
      ContainsTransitive(p, enh, DefaultEnhancements[i].labelText);
    }
  }

  // ---------------------------------------------------------------------
  // Replies of the image model
  // ---------------------------------------------------------------------

  /** The model the service calls, for generation and refinement alike. */
  const ModelName: string := "gemini-2.5-flash-image"

  /** The inline payload of a reply part; both fields may be missing. */
  datatype InlineData = InlineData(mimeType: Option<string>, data: Option<string>)

  /** One part of a reply: inline data, text, or neither. */
  datatype Part = Part(inlineData: Option<InlineData>, text: Option<string>)

  datatype Content = Content(parts: Option<seq<Part>>)

  datatype Candidate = Candidate(content: Option<Content>)

  /** A reply of the model as far as the service reads it. */
  datatype Response = Response(candidates: Option<seq<Candidate>>)

  /** The request sent to the model: the model name, one inline image and one
      text part. */
  datatype Request = Request(model: string, imageMime: string, imageData: string, text: string)

  /** `response.candidates && response.candidates[0]?.content?.parts`: the
      parts of the first candidate, when every link of the chain is present. */
  function FirstCandidateParts(r: Response): (parts: Option<seq<Part>>)
    ensures parts.Some? <==>
      r.candidates.Some? && |r.candidates.value| > 0 &&
      r.candidates.value[0].content.Some? && r.candidates.value[0].content.value.parts.Some?
  {
    match r.candidates
    case None => None
    case Some(cs) =>
      if |cs| == 0 then None
      else match cs[0].content
        case None => None
        case Some(c) => c.parts
  }

  /** `part.inlineData && part.inlineData.data`: inline data whose payload is
      present and non-empty (the empty string is falsy). */
  predicate HasImage(p: Part)
  {
    p.inlineData.Some? && p.inlineData.value.data.Some? && p.inlineData.value.data.value != ""
  }

  /** `part.inlineData.mimeType || 'image/png'` */
  function PartMime(d: InlineData): string
  {
    match d.mimeType
    case Some(m) => if m != "" then m else "image/png"
    case None => "image/png"
  }

  /** The URL the service builds for an image: `data:<mime>;base64,<data>`. */
  function DataUrl(mime: string, data: string): string
  {
    "data:" + mime + ";base64," + data
  }

  /** The URL for a part the scan accepts. */
  function PartUrl(p: Part): string
    requires HasImage(p)
  {
    DataUrl(PartMime(p.inlineData.value), p.inlineData.value.data.value)
  }

  /** Index of the first part carrying an image, if any. */
  function FirstImageIndex(parts: seq<Part>): (r: Option<nat>)
    ensures r.None? <==> forall i :: 0 <= i < |parts| ==> !HasImage(parts[i])
    ensures r.Some? ==> r.value < |parts| && HasImage(parts[r.value]) &&
                        forall j :: 0 <= j < r.value ==> !HasImage(parts[j])
  {
    if |parts| == 0 then None
    else if HasImage(parts[0]) then Some(0)
    else
      match FirstImageIndex(parts[1..])
      case None => None
      case Some(k) => Some(k + 1)
  }

  /** The URL of the first part carrying an image, if any. */
  function FirstImageUrl(parts: seq<Part>): Option<string>
  {
    match FirstImageIndex(parts)
    case None => None
    case Some(i) => Some(PartUrl(parts[i]))
  }

  /** The `for…of` scan with its early return. */
  method ScanParts(parts: seq<Part>) returns (url: Option<string>)
    ensures url == FirstImageUrl(parts)
  {
    for i := 0 to |parts|
      invariant forall j :: 0 <= j < i ==> !HasImage(parts[j])
    {
      if HasImage(parts[i]) {
        return Some(PartUrl(parts[i]));
      }
    }
    return None;
  }

  /** The image URL of a reply: a failed call passes its error on, a reply
      without an image part fails with `noImage`. */
  function ExtractImage(reply: Result<Response, string>, noImage: string): Result<string, string>
  {
    match reply
    case Err(e) => Err(e)
    case Ok(response) =>
      match FirstCandidateParts(response)
      case None => Err(noImage)
      case Some(parts) =>
        match FirstImageUrl(parts)
        case None => Err(noImage)
        case Some(url) => Ok(url)
  }

  /** A successful extraction is the URL of the first image part of the first
      candidate; a failure is either the call's own error or `noImage`,
      exactly when the reply carries no image part. */
  lemma ExtractImageCases(reply: Result<Response, string>, noImage: string)
    ensures ExtractImage(reply, noImage).Ok? <==>
      reply.Ok? && FirstCandidateParts(reply.value).Some? &&
      exists i :: 0 <= i < |FirstCandidateParts(reply.value).value| && HasImage(FirstCandidateParts(reply.value).value[i])
    ensures ExtractImage(reply, noImage).Ok? ==>
      var parts := FirstCandidateParts(reply.value).value;
      var i := FirstImageIndex(parts).value;
      ExtractImage(reply, noImage).value == PartUrl(parts[i]) &&
      forall j :: 0 <= j < i ==> !HasImage(parts[j])
    ensures reply.Err? ==> ExtractImage(reply, noImage) == Err(reply.error)
    ensures reply.Ok? && ExtractImage(reply, noImage).Err? ==> ExtractImage(reply, noImage).error == noImage
  {
  }

  /** The scan takes the first image part and ignores what follows it. */
  lemma FirstImageUrlIgnoresRest(parts: seq<Part>, more: seq<Part>)
    requires FirstImageUrl(parts).Some?
    ensures FirstImageUrl(parts + more) == FirstImageUrl(parts)
  {
    var i := FirstImageIndex(parts).value;
    assert (parts + more)[i] == parts[i];
    assert forall j :: 0 <= j < i ==> (parts + more)[j] == parts[j];
  }

  /** Without a mime type, the URL announces PNG. */
  lemma PartUrlDefaultsToPng(p: Part)
    requires HasImage(p) && p.inlineData.value.mimeType.None?
    ensures PartUrl(p) == "data:image/png;base64," + p.inlineData.value.data.value
  {
  }

  // ---------------------------------------------------------------------
  // The data URL parser used before a refinement
  // ---------------------------------------------------------------------

  /** `[a-zA-Z0-9]` */
  predicate IsTypeChar(c: char)
  {
    ('a' <= c <= 'z') || ('A' <= c <= 'Z') || ('0' <= c <= '9')
  }

  /** `[a-zA-Z0-9-.+]`; the '-' right after a range is a literal hyphen. */
  predicate IsSubtypeChar(c: char)
  {
    IsTypeChar(c) || c == '-' || c == '.' || c == '+'
  }

  /** The characters a regular-expression `.` does not match without the
      dotAll flag: line feed, carriage return, line and paragraph separators. */
  predicate IsLineTerminator(c: char)
  {
    c == '\n' || c == '\r' || c == '\U{2028}' || c == '\U{2029}'
  }

  /** `[a-zA-Z0-9]+\/[a-zA-Z0-9-.+]+` over the whole of `m`. */
  predicate IsMime(m: string)
  {
    exists k :: 0 < k < |m| - 1 && m[k] == '/' &&
      (forall i :: 0 <= i < k ==> IsTypeChar(m[i])) &&
      (forall i :: k < i < |m| ==> IsSubtypeChar(m[i]))
  }

  /** `.+` over the whole of `d`. */
  predicate IsPayload(d: string)
  {
    |d| > 0 && forall i :: 0 <= i < |d| ==> !IsLineTerminator(d[i])
  }

  /** The reference reading of `^data:([a-zA-Z0-9]+\/[a-zA-Z0-9-.+]+);base64,(.+)$`:
      `s` matches with capture groups `mime` and `data`. */
  ghost predicate DataUrlMatch(s: string, mime: string, data: string)
  {
    s == DataUrl(mime, data) && IsMime(mime) && IsPayload(data)
  }

  /** A MIME type in the pattern's alphabet has no ';'. */
  lemma MimeHasNoSemicolon(m: string)
    requires IsMime(m)
    ensures ';' !in m
  {
  }

  /** `currentImageDataUrl.match(...)`: the two capture groups, or `None`
      when the string does not match. Since the MIME group cannot hold ';',
      it ends at the first ';' after "data:". */
  function ParseDataUrl(s: string): Option<(string, string)>
  {
    if |s| < 5 || s[..5] != "data:" then None
    else
      var rest := s[5..];
      match IndexOf(rest, ';')
      case None => None
      case Some(k) =>
        var mime := rest[..k];
        var tail := rest[k..];
        if IsMime(mime) && |tail| >= 8 && tail[..8] == ";base64," && IsPayload(tail[8..]) then
          Some((mime, tail[8..]))
        else None
  }

  /** Whatever the parser accepts matches the pattern, with the groups it returns. */
  lemma ParseDataUrlSound(s: string)
    requires ParseDataUrl(s).Some?
    ensures DataUrlMatch(s, ParseDataUrl(s).value.0, ParseDataUrl(s).value.1)
  {
  }

  /** Round trip: a URL built from a MIME type and payload in the pattern's
      alphabet parses back to exactly that MIME type and payload. */
  lemma ParseDataUrlRoundTrip(mime: string, data: string)
    requires IsMime(mime) && IsPayload(data)
    ensures ParseDataUrl(DataUrl(mime, data)) == Some((mime, data))
  {
    var s := DataUrl(mime, data);
    var rest := mime + (";base64," + data);
    assert s[..5] == "data:" && s[5..] == rest;
    MimeHasNoSemicolon(mime);
    assert rest[..|mime|] == mime;
    IndexOfFirst(rest, ';', |mime|);
    assert rest[|mime|..] == ";base64," + data;
  }

  /** The parser accepts exactly the strings the pattern matches, and its
      groups are the only way to match: it rejects a string exactly when no
      MIME type and payload make it up. */
  lemma ParseDataUrlExact(s: string, mime: string, data: string)
    ensures ParseDataUrl(s) == Some((mime, data)) <==> DataUrlMatch(s, mime, data)
  {
    if DataUrlMatch(s, mime, data) {
      ParseDataUrlRoundTrip(mime, data);
    }
    if ParseDataUrl(s) == Some((mime, data)) {
      ParseDataUrlSound(s);
    }
  }

  /** "image/png", the default the scan falls back on, is in the pattern's alphabet. */
  lemma PngIsMime()
    ensures IsMime("image/png")
  {
    assert "image/png"[5] == '/';
  }

  /** A URL the scan built from a part whose MIME type and payload are in the
      pattern's alphabet is accepted by the refinement parser, which gives
      back that part's MIME type and payload. */
  lemma ScanThenParse(p: Part)
    requires HasImage(p)
    requires IsMime(PartMime(p.inlineData.value)) && IsPayload(p.inlineData.value.data.value)
    ensures ParseDataUrl(PartUrl(p)) == Some((PartMime(p.inlineData.value), p.inlineData.value.data.value))
  {
    ParseDataUrlRoundTrip(PartMime(p.inlineData.value), p.inlineData.value.data.value);
  }

  // ---------------------------------------------------------------------
  // The two service operations
  // ---------------------------------------------------------------------

  const EditLead: string := "Edit this image based on the following instruction: \""
  const EditTail: string := "\". Maintain the high-quality, photorealistic editorial food photography style. Do not change the aspect ratio."

  /** The prompt of a refinement: the instruction quoted inside fixed text. */
  function EditPrompt(instruction: string): string
  {
    EditLead + instruction + EditTail
  }

  /** The instruction sits verbatim between the fixed lead and tail, so two
      different instructions never give the same prompt. */
  lemma EditPromptRecoversInstruction(instruction: string)
    ensures |EditPrompt(instruction)| == |EditLead| + |instruction| + |EditTail|
    ensures EditPrompt(instruction)[|EditLead|..|EditLead| + |instruction|] == instruction
  {
  }

  lemma EditPromptInjective(a: string, b: string)
    requires EditPrompt(a) == EditPrompt(b)
    ensures a == b
  {
    EditPromptRecoversInstruction(a);
    EditPromptRecoversInstruction(b);
  }

  const NoImageFileMessage: string := "No image file provided."
  const NoImageReturnedMessage: string := "A IA não retornou uma imagem válida. Tente ajustar o tipo de alimento."
  const InvalidImageDataMessage: string := "Dados da imagem inválidos para refinamento."
  const RefineFailedMessage: string := "Falha ao refinar a imagem."

  /** What the service's `await`s deliver: the file reader's rejection,
      which comes before any model call, or else the model's reply. */
  function Received(encoded: Result<string, string>, reply: Result<Response, string>): Result<Response, string>
  {
    match encoded
    case Err(e) => Err(e)
    case Ok(_) => reply
  }

  /** What `generateEnhancedImage(state)` resolves to or throws, given what
      its calls delivered (see `Received`): without an image file it fails
      before any call. */
  function GenerateOutcome(s: AppState, reply: Result<Response, string>): Result<string, string>
  {
    if s.imageFile.None? then Err(NoImageFileMessage)
    else ExtractImage(reply, NoImageReturnedMessage)
  }

  /** What `refineImage(url, instruction)` resolves to or throws: a URL the
      parser rejects fails before any call. */
  function RefineOutcome(url: string, reply: Result<Response, string>): Result<string, string>
  {
    if ParseDataUrl(url).None? then Err(InvalidImageDataMessage)
    else ExtractImage(reply, RefineFailedMessage)
  }

  /** `generateEnhancedImage(state)`. `encoded` is what the file reader
      produced (the base64 payload, or its rejection) and `reply` the outcome
      of the model call; the request is what the service sends, `None` when
      it sends nothing. */
  method GenerateEnhancedImage(s: AppState, encoded: Result<string, string>, reply: Result<Response, string>)
    returns (request: Option<Request>, r: Result<string, string>)
    ensures request.Some? <==> s.imageFile.Some? && encoded.Ok?
    ensures request.Some? ==>
      request.value == Request(ModelName, s.imageFile.value.mimeType, encoded.value, GeneratePrompt(s))
    ensures s.imageFile.Some? && encoded.Err? ==> r == Err(encoded.error)
    ensures r == GenerateOutcome(s, Received(encoded, reply))
  {
    if s.imageFile.None? {
      return None, Err(NoImageFileMessage);
    }
    if encoded.Err? {
      return None, Err(encoded.error);
    }
    request := Some(Request(ModelName, s.imageFile.value.mimeType, encoded.value, GeneratePrompt(s)));
    r := Scan(reply, NoImageReturnedMessage);
  }

  /** `refineImage(currentImageDataUrl, instruction)`: the image sent back is
      the payload parsed out of the current URL, with its MIME type. */
  method RefineImage(url: string, instruction: string, reply: Result<Response, string>)
    returns (request: Option<Request>, r: Result<string, string>)
    ensures request.None? <==> ParseDataUrl(url).None?
    ensures request.Some? ==>
      DataUrlMatch(url, request.value.imageMime, request.value.imageData) &&
      request.value.model == ModelName && request.value.text == EditPrompt(instruction)
    ensures r == RefineOutcome(url, reply)
  {
    var groups := ParseDataUrl(url);
    if groups.None? {
      return None, Err(InvalidImageDataMessage);
    }
    ParseDataUrlSound(url);
    var (mime, data) := groups.value;
    request := Some(Request(ModelName, mime, data, EditPrompt(instruction)));
    r := Scan(reply, RefineFailedMessage);
  }

  /** The scan of a reply, throwing `noImage` after it finds nothing. */
  method Scan(reply: Result<Response, string>, noImage: string) returns (r: Result<string, string>)
    ensures r == ExtractImage(reply, noImage)
  {
    if reply.Err? {
      return Err(reply.error);
    }
    var parts := FirstCandidateParts(reply.value);
    if parts.None? {
      return Err(noImage);
    }
    var url := ScanParts(parts.value);
    if url.None? {
      return Err(noImage);
    }
    return Ok(url.value);
  }

  /** A URL the generation returned, when the model's MIME type and payload
      are in the pattern's alphabet, is accepted by the refinement. */
  lemma GenerateThenRefine(s: AppState, reply: Result<Response, string>, reply2: Result<Response, string>)
    requires GenerateOutcome(s, reply).Ok?
    requires var parts := FirstCandidateParts(reply.value).value;
             var d := parts[FirstImageIndex(parts).value].inlineData.value;
             IsMime(PartMime(d)) && IsPayload(d.data.value)
    ensures RefineOutcome(GenerateOutcome(s, reply).value, reply2) == ExtractImage(reply2, RefineFailedMessage)
  {
    var parts := FirstCandidateParts(reply.value).value;
    ScanThenParse(parts[FirstImageIndex(parts).value]);
  }
}
