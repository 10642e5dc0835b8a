/** The five enhancement strategies. Each pushes a fixed list of lines, the
    first one echoing a normalised form of the text, and joins them with
    newlines. The lines are kept as data (a bold title, a bullet, ...) and
    spelled out only when the list is joined. */
module Templates {
  import opened JsString
  import opened Heuristics

  /** The keys of the strategy table. */
  datatype Category = Code | Creative | Analysis | Business | General

  // Titles and phrases are named constructors rather than string literals so
  // that proofs about every strategy compare short datatype values; the
  // literals themselves, exactly as the source writes them, are spelled out
  // only by `TitleText` and `Wording`, which keeps verification cheap.

  /** The bold titles the strategies use. */
  datatype Title =
    | Task | Requirements | UISpecifications | TechnicalDetails | Deliverables
    | CreativeBrief | StyleAndTone | Structure | CreativeElements | Length | Audience
    | AnalysisObjective | Scope | Methodology | Format
    | BusinessObjective | Context | Request | Tone

  function TitleText(t: Title): string {
    match t
    case Task => "Task"
    case Requirements => "Requirements"
    case UISpecifications => "UI/UX Specifications"
    case TechnicalDetails => "Technical Details"
    case Deliverables => "Deliverables"
    case CreativeBrief => "Creative Brief"
    case StyleAndTone => "Style & Tone"
    case Structure => "Structure"
    case CreativeElements => "Creative Elements"
    case Length => "Length"
    case Audience => "Audience"
    case AnalysisObjective => "Analysis Objective"
    case Scope => "Scope"
    case Methodology => "Methodology"
    case Format => "Format"
    case BusinessObjective => "Business Objective"
    case Context => "Context"
    case Request => "Request"
    case Tone => "Tone"
  }

  /** The fixed phrases of the strategies, one per bullet or plain line. */
  datatype Phrase =
    // code
    | CleanCode | BestPractices | ResponsiveDesign | ErrorHandling
    | IntuitiveInterface | SmoothAnimations | Accessible | MobileResponsive
    | ModernJavaScript | Performance | InlineComments | NamingConventions
    | WorkingCode | KeyDecisions | SetupInstructions
    // creative
    | ImmersiveNarrative | VividLanguage | ConsistentVoice | EmotionallyResonant
    | BeginningMiddleEnd | WellDevelopedCharacters | CompellingConflict | SatisfyingResolution
    | SensoryDetails | UniquePerspective | MemorableImagery | AuthenticDialogue
    // analysis
    | KeyFactors | DataDrivenInsights | MultiplePerspectives | CurrentTrends
    | SystematicApproach | EvidenceBased | RelevantDataPoints | Correlations
    | StepSummary | StepAnalysis | StepFindings | StepRecommendations | StepOutlook
    | SectionHeadings | BulletPoints | DataVisualizations | Citations
    // business
    | Industry | TargetAudience | BusinessGoals | Timeline
    | ProfessionalTone | ConciseCommunication | DataDrivenDecisions | ROI
    | ExecutiveSummary | Proposal | RiskAssessment | SuccessMetrics | Roadmap
    | DocumentStructure | HeadingsAndSections | SupportingData | NextSteps
    // general
    | ResponseThat | CoreQuestion | Background | ConsidersPerspectives | PracticalInsights
    | WellOrganized | LogicalFlow | Examples | KeyPoints
    // values of the closing fields
    | WordCount | ReadersInterestedIn | Approachable | ThoroughButReadable

  function Wording(p: Phrase): string {
    match p
    case CleanCode => "Implement clean, maintainable, and well-documented code"
    case BestPractices => "Follow best practices and design patterns"
    case ResponsiveDesign => "Ensure responsive design (if applicable)"
    case ErrorHandling => "Include error handling and edge cases"
    case IntuitiveInterface => "Modern, intuitive interface"
    case SmoothAnimations => "Smooth animations and transitions"
    case Accessible => "Accessible (WCAG 2.1 compliant)"
    case MobileResponsive => "Mobile-responsive design"
    case ModernJavaScript => "Use modern JavaScript (ES6+)"
    case Performance => "Optimize for performance"
    case InlineComments => "Add inline comments for complex logic"
    case NamingConventions => "Follow naming conventions"
    case WorkingCode => "Complete, working code"
    case KeyDecisions => "Brief explanation of key implementation decisions"
    case SetupInstructions => "Any dependencies or setup instructions"
    case ImmersiveNarrative => "Engaging and immersive narrative"
    case VividLanguage => "Vivid, descriptive language"
    case ConsistentVoice => "Consistent voice throughout"
    case EmotionallyResonant => "Emotionally resonant"
    case BeginningMiddleEnd => "Clear beginning, middle, and end"
    case WellDevelopedCharacters => "Well-developed characters (if applicable)"
    case CompellingConflict => "Compelling conflict or central theme"
    case SatisfyingResolution => "Satisfying resolution"
    case SensoryDetails => "Rich sensory details"
    case UniquePerspective => "Unique perspective or angle"
    case MemorableImagery => "Memorable imagery and metaphors"
    case AuthenticDialogue => "Authentic dialogue (if applicable)"
    case KeyFactors => "Comprehensive examination of key factors"
    case DataDrivenInsights => "Data-driven insights"
    case MultiplePerspectives => "Multiple perspectives considered"
    case CurrentTrends => "Current trends and patterns"
    case SystematicApproach => "Systematic approach to analysis"
    case EvidenceBased => "Evidence-based conclusions"
    case RelevantDataPoints => "Comparison of relevant data points"
    case Correlations => "Identification of correlations and causations"
    case StepSummary => "1. Executive summary"
    case StepAnalysis => "2. Detailed analysis with supporting data"
    case StepFindings => "3. Key findings and insights"
    case StepRecommendations => "4. Actionable recommendations"
    case StepOutlook => "5. Future outlook and predictions"
    case SectionHeadings => "Clear section headings"
    case BulletPoints => "Bullet points for key insights"
    case DataVisualizations => "Data visualizations (if applicable)"
    case Citations => "Citations for sources (if applicable)"
    case Industry => "Industry: [Specify relevant industry]"
    case TargetAudience => "Target audience: [Define stakeholders]"
    case BusinessGoals => "Business goals: [Align with strategic objectives]"
    case Timeline => "Timeline: [Specify urgency/deadlines]"
    case ProfessionalTone => "Professional, business-appropriate tone"
    case ConciseCommunication => "Clear, concise communication"
    case DataDrivenDecisions => "Data-driven decision making"
    case ROI => "ROI considerations"
    case ExecutiveSummary => "Executive summary"
    case Proposal => "Detailed proposal/plan"
    case RiskAssessment => "Risk assessment"
    case SuccessMetrics => "Success metrics and KPIs"
    case Roadmap => "Implementation roadmap"
    case DocumentStructure => "Professional business document structure"
    case HeadingsAndSections => "Clear headings and sections"
    case SupportingData => "Supporting data and evidence"
    case NextSteps => "Actionable next steps"
    case ResponseThat => "Please provide a comprehensive response that:"
    case CoreQuestion => "Addresses the core question or request"
    case Background => "Includes relevant background information"
    case ConsidersPerspectives => "Considers multiple perspectives"
    case PracticalInsights => "Provides practical, actionable insights"
    case WellOrganized => "Clear, well-organized structure"
    case LogicalFlow => "Logical flow of information"
    case Examples => "Examples or illustrations where helpful"
    case KeyPoints => "Summary of key points"
    case WordCount => "Approximately 500-800 words"
    case ReadersInterestedIn => "General readers interested in "
    case Approachable => "Professional yet approachable"
    case ThoroughButReadable => "Detailed enough to be thorough, concise enough to be readable"
  }

  /** One pushed line. */
  datatype Line =
    | Lead(title: Title, value: string)    // the opening `**title**: value`
    | Heading(title: Title)                // `\n**title**:`, a blank line then a heading
    | Field(title: Title, phrase: Phrase, tail: string)  // `\n**title**: phrase tail`
    | Bullet(item: Phrase)                 // `- item`
    | Plain(item: Phrase)                  // the phrase alone

  /** The characters of a line, exactly as the strategies push them. */
  function Spell(l: Line): string {
    match l
    case Lead(t, v) => "**" + TitleText(t) + "**: " + v
    case Heading(t) => "\n**" + TitleText(t) + "**:"
    case Field(t, v, tail) => "\n**" + TitleText(t) + "**: " + Wording(v) + tail
    case Bullet(p) => "- " + Wording(p)
    case Plain(p) => Wording(p)
  }

  /** The lines the code strategy adds when the text mentions a user interface. */
  const UIBlock: seq<Line> :=
    [Heading(UISpecifications), Bullet(IntuitiveInterface), Bullet(SmoothAnimations), Bullet(Accessible), Bullet(MobileResponsive)]

  /** Where the UI/UX block goes: after the task line and the five requirement lines. */
  const UIBlockAt: nat := 6

  /** A line that is template text only: it takes nothing from the prompt's text. */
  predicate Fixed(l: Line) {
    !l.Lead? && (l.Field? ==> l.tail == "")
  }

  /** `enhanceCodePrompt`: the task line echoes the goal, the UI/UX block is
      there exactly when the UI test holds, and every other line is fixed. */
  function CodeLines(goal: string, ui: bool): (r: seq<Line>)
    ensures |r| == 15 + (if ui then |UIBlock| else 0)
    ensures r[0] == Lead(Task, "Create a " + goal)
    ensures forall k :: 1 <= k < |r| ==> Fixed(r[k])
    ensures Heading(UISpecifications) in r <==> ui
  {
    var r := [Lead(Task, "Create a " + goal)]
    + [Heading(Requirements), Bullet(CleanCode), Bullet(BestPractices), Bullet(ResponsiveDesign), Bullet(ErrorHandling)]
    + (if ui then UIBlock else [])
    + [Heading(TechnicalDetails), Bullet(ModernJavaScript), Bullet(Performance), Bullet(InlineComments), Bullet(NamingConventions)]
    + [Heading(Deliverables), Bullet(WorkingCode), Bullet(KeyDecisions), Bullet(SetupInstructions)];
    assert ui ==> r[UIBlockAt] == Heading(UISpecifications);
    r
  }

  /** `enhanceCreativePrompt`: the brief echoes the capitalised text, the
      closing audience line names the topic, and every line between is fixed. */
  function CreativeLines(subject: string, topic: string): (r: seq<Line>)
    ensures |r| == 18
    ensures r[0] == Lead(CreativeBrief, subject)
    ensures r[17] == Field(Audience, ReadersInterestedIn, topic)
    ensures forall k :: 1 <= k < 17 ==> Fixed(r[k])
    ensures Heading(UISpecifications) !in r
  {
    [Lead(CreativeBrief, subject)]
    + [Heading(StyleAndTone), Bullet(ImmersiveNarrative), Bullet(VividLanguage), Bullet(ConsistentVoice), Bullet(EmotionallyResonant)]
    + [Heading(Structure), Bullet(BeginningMiddleEnd), Bullet(WellDevelopedCharacters), Bullet(CompellingConflict), Bullet(SatisfyingResolution)]
    + [Heading(CreativeElements), Bullet(SensoryDetails), Bullet(UniquePerspective), Bullet(MemorableImagery), Bullet(AuthenticDialogue)]
    + [Field(Length, WordCount, "")]
    + [Field(Audience, ReadersInterestedIn, topic)]
  }

  /** `enhanceAnalysisPrompt`: the opening line echoes the capitalised text and every other line is fixed. */
  function AnalysisLines(subject: string): (r: seq<Line>)
    ensures |r| == 22
    ensures r[0] == Lead(AnalysisObjective, subject)
    ensures forall k :: 1 <= k < |r| ==> Fixed(r[k])
    ensures Heading(UISpecifications) !in r
  {
    [Lead(AnalysisObjective, subject)]
    + [Heading(Scope), Bullet(KeyFactors), Bullet(DataDrivenInsights), Bullet(MultiplePerspectives), Bullet(CurrentTrends)]
    + [Heading(Methodology), Bullet(SystematicApproach), Bullet(EvidenceBased), Bullet(RelevantDataPoints), Bullet(Correlations)]
    + [Heading(Deliverables)]
    + [Plain(StepSummary), Plain(StepAnalysis), Plain(StepFindings), Plain(StepRecommendations), Plain(StepOutlook)]
    + [Heading(Format), Bullet(SectionHeadings), Bullet(BulletPoints), Bullet(DataVisualizations), Bullet(Citations)]
  }

  /** `enhanceBusinessPrompt`: the opening line echoes the capitalised text and every other line is fixed. */
  function BusinessLines(subject: string): (r: seq<Line>)
    ensures |r| == 22
    ensures r[0] == Lead(BusinessObjective, subject)
    ensures forall k :: 1 <= k < |r| ==> Fixed(r[k])
    ensures Heading(UISpecifications) !in r
  {
    [Lead(BusinessObjective, subject)]
    + [Heading(Context), Bullet(Industry), Bullet(TargetAudience), Bullet(BusinessGoals), Bullet(Timeline)]
    + [Heading(Requirements), Bullet(ProfessionalTone), Bullet(ConciseCommunication), Bullet(DataDrivenDecisions), Bullet(ROI)]
    + [Heading(Deliverables), Bullet(ExecutiveSummary), Bullet(Proposal), Bullet(RiskAssessment), Bullet(SuccessMetrics), Bullet(Roadmap)]
    + [Heading(Format), Bullet(DocumentStructure), Bullet(HeadingsAndSections), Bullet(SupportingData), Bullet(NextSteps)]
  }

  /** `enhanceGeneralPrompt`: the opening line echoes the capitalised text and every other line is fixed. */
  function GeneralLines(subject: string): (r: seq<Line>)
    ensures |r| == 14
    ensures r[0] == Lead(Request, subject)
    ensures forall k :: 1 <= k < |r| ==> Fixed(r[k])
    ensures Heading(UISpecifications) !in r
  {
    [Lead(Request, subject)]
    + [Heading(Context), Plain(ResponseThat)]
    + [Bullet(CoreQuestion), Bullet(Background), Bullet(ConsidersPerspectives), Bullet(PracticalInsights)]
    + [Heading(Format), Bullet(WellOrganized), Bullet(LogicalFlow), Bullet(Examples), Bullet(KeyPoints)]
    + [Field(Tone, Approachable, "")]
    + [Field(Length, ThoroughButReadable, "")]
  }

  /** What the strategies take from the text: the goal and the UI test for
      code, the capitalised text for the others, the topic for creative. */
  datatype Extracted = Extracted(goal: string, ui: bool, subject: string, topic: string)

  function Extract(text: string): Extracted {
    Extracted(ExtractMainGoal(text), MentionsUI(text), CapitalizeFirst(text), ExtractTopic(text))
  }

  /** The lines the strategy for `c` pushes. */
  function Lines(c: Category, x: Extracted): seq<Line> {
    match c
    case Code => CodeLines(x.goal, x.ui)
    case Creative => CreativeLines(x.subject, x.topic)
    case Analysis => AnalysisLines(x.subject)
    case Business => BusinessLines(x.subject)
    case General => GeneralLines(x.subject)
  }

  /** The pushed strings, in order. */
  function Render(lines: seq<Line>): (r: seq<string>)
    ensures |r| == |lines| && forall k :: 0 <= k < |lines| ==> r[k] == Spell(lines[k])
  {
    seq(|lines|, k requires 0 <= k < |lines| => Spell(lines[k]))
  }

  /** The strategy for `c` applied to the (trimmed) text: its lines joined with newlines. */
  function Strategy(c: Category, text: string): string {
    Join(Render(Lines(c, Extract(text))), "\n")
  }

  // ------------------------------------------------------------ properties

  /** The title of each strategy's opening line. */
  function LeadTitle(c: Category): Title {
    match c
    case Code => Task
    case Creative => CreativeBrief
    case Analysis => AnalysisObjective
    case Business => BusinessObjective
    case General => Request
  }

  /** What each strategy's opening line says after its title. */
  function LeadValue(c: Category, x: Extracted): string {
    if c == Code then "Create a " + x.goal else x.subject
  }

  /** Where each strategy's first bullet is. */
  function FirstBulletAt(c: Category): nat {
    if c == General then 3 else 2
  }

  /** Every strategy opens with its lead line and has a bullet among its lines. */
  lemma LinesShape(c: Category, x: Extracted)
    ensures FirstBulletAt(c) < |Lines(c, x)|
    ensures Lines(c, x)[0] == Lead(LeadTitle(c), LeadValue(c, x))
    ensures Lines(c, x)[FirstBulletAt(c)].Bullet?
  {
  }

  /** Rendered lines begin with the first line and a newline. */
  lemma RenderedOpening(lines: seq<Line>)
    requires |lines| >= 2
    ensures var text, first := Join(Render(lines), "\n"), Spell(lines[0]) + "\n";
      |first| <= |text| && text[..|first|] == first
  {
    JoinFirst(Render(lines), "\n");
  }

  /** Rendered lines that open with a lead line and hold a bullet contain bold
      markers, a newline and a dash. */
  lemma RenderedStructure(lines: seq<Line>, k: nat)
    requires |lines| >= 2 && lines[0].Lead? && k < |lines| && lines[k].Bullet?
    ensures var text := Join(Render(lines), "\n");
      Contains(text, "**") && Contains(text, "\n") && Contains(text, "-")
  {
    var r := Render(lines);
    var text := Join(r, "\n");
    JoinContainsPiece(r, "\n", 0);
    assert r[0] == [] + "**" + r[0][2..];
    ContainsInfix([], "**", r[0][2..]);
    ContainsTransitive(text, r[0], "**");
    JoinContainsSeparator(r, "\n");
    JoinContainsPiece(r, "\n", k);
    assert r[k] == [] + "-" + r[k][1..];
    ContainsInfix([], "-", r[k][1..]);
    ContainsTransitive(text, r[k], "-");
  }

  /** Every strategy's output begins with `**title**: value` and a newline. */
  lemma StrategyOpening(c: Category, text: string)
    ensures var out, first := Strategy(c, text), "**" + TitleText(LeadTitle(c)) + "**: " + LeadValue(c, Extract(text)) + "\n";
      |first| <= |out| && out[..|first|] == first
  {
    LinesShape(c, Extract(text));
    RenderedOpening(Lines(c, Extract(text)));
  }

  /** Every strategy's output echoes the text: the code strategy its extracted
      goal, the others the capitalised text. */
  lemma StrategyEchoesText(c: Category, text: string)
    ensures c == Code ==> Contains(Strategy(c, text), ExtractMainGoal(text))
    ensures c != Code ==> Contains(Strategy(c, text), CapitalizeFirst(text))
  {
    var out, title, value := Strategy(c, text), TitleText(LeadTitle(c)), LeadValue(c, Extract(text));
    var first := "**" + title + "**: " + value + "\n";
    StrategyOpening(c, text);
    assert OccursAt(out, first, 0);
    ContainsAt(out, first, 0);
    ContainsInfix("**" + title + "**: ", value, "\n");
    ContainsTransitive(out, first, value);
    if c == Code {
      ContainsInfix("Create a ", ExtractMainGoal(text), []);
      assert "Create a " + ExtractMainGoal(text) + [] == value;
      ContainsTransitive(out, value, ExtractMainGoal(text));
    }
  }

  /** Every strategy's output has bold markers, a newline and a bullet dash. */
  lemma StrategyIsStructured(c: Category, text: string)
    ensures Contains(Strategy(c, text), "**")
    ensures Contains(Strategy(c, text), "\n")
    ensures Contains(Strategy(c, text), "-")
  {
    LinesShape(c, Extract(text));
    RenderedStructure(Lines(c, Extract(text)), FirstBulletAt(c));
  }

  /** Mentioning a user interface inserts the UI/UX block after the requirements
      and changes nothing else. */
  lemma CodeUIBlockIsTheOnlyDifference(goal: string)
    ensures var plain := CodeLines(goal, false);
      CodeLines(goal, true) == plain[..UIBlockAt] + UIBlock + plain[UIBlockAt..]
  {
  }

  /** Code lines with the UI test set show the UI/UX heading once joined. */
  lemma CodeUIRendered(x: Extracted)
    requires x.ui
    ensures Contains(Join(Render(Lines(Code, x)), "\n"), Spell(Heading(UISpecifications)))
  {
    var lines := Lines(Code, x);
    assert lines[UIBlockAt] == Heading(UISpecifications);
    JoinContainsPiece(Render(lines), "\n", UIBlockAt);
  }

  /** The code strategy has the UI/UX heading exactly when the text mentions a
      user interface, and the heading is then in its output. */
  lemma StrategyCodeUI(text: string)
    ensures Heading(UISpecifications) in Lines(Code, Extract(text)) <==> MentionsUI(text)
    ensures MentionsUI(text) ==> Contains(Strategy(Code, text), Spell(Heading(UISpecifications)))
  {
    var x := Extract(text);
    if x.ui {
      CodeUIRendered(x);
    }
  }

  /** Two texts with the same goal, one mentioning a user interface and one not,
      get code lines that differ only by the UI/UX block. */
  lemma StrategyCodeUIOnlyDifference(a: string, b: string)
    requires ExtractMainGoal(a) == ExtractMainGoal(b) && MentionsUI(a) && !MentionsUI(b)
    ensures var without := Lines(Code, Extract(b));
      Lines(Code, Extract(a)) == without[..UIBlockAt] + UIBlock + without[UIBlockAt..]
  {
    CodeUIBlockIsTheOnlyDifference(ExtractMainGoal(a));
  }

  /** The joined creative lines end with a newline and the audience line naming the topic. */
  lemma CreativeEndsWithAudience(x: Extracted)
    ensures var out, last := Join(Render(Lines(Creative, x)), "\n"), "\n" + Spell(Field(Audience, ReadersInterestedIn, x.topic));
      |last| <= |out| && out[|out| - |last|..] == last
  {
    JoinLast(Render(Lines(Creative, x)), "\n");
  }
}
