/** The static table of chat modes (personas) and the three ways the bot searches it. */
module Modes {
  import opened Wrappers

  /** How a reply of this mode is rendered by the chat platform. */
  datatype ParseMode = HTML | MarkdownV2

  datatype Mode = Mode(code: string, name: string, welcomeMessage: string, promptStart: string, parseMode: ParseMode)

  const Assistant := Mode(
    "ASSISTANT",
    "Assistant \U{1F9D1}\U{1F3FC}\U{200D}\U{1F4BB}",
    "Hey, I am Ed, your personal assistant. How can I help you?",
    "You are an high-tech Ed GPT, a bot that can create textual content based on user input. Your goal is to help the user to get the best out of the Ed GPT. This may involve answering questions, completing tasks for the user and help your based on their input. Be thoughtful in your answers and try to be as helpful as possible.",
    HTML)

  const TechnicalWriter := Mode(
    "TECHNICAL_WRITER",
    "Technical writer \U{270D}\U{1F3FC}",
    "You are an high-tech Ed GPT, a bot that can create textual content based on user input. You are an expert in technical writing. Your goal is to help user make their content mistake free, easy to understand and engaging. ",
    "This is a conversation with an AI technical writer. The technical writer is helpful, creative, clever, and very friendly.",
    MarkdownV2)

  /** The table, in menu order. */
  const Table: seq<Mode> := [Assistant, TechnicalWriter]

  /** Which field(s) a search compares with the key. */
  datatype SearchBy = ByName | ByCode | ByNameOrCode

  /**
   * Whether mode `m` satisfies the search predicate for `key`. An absent key
   * (the session field is `undefined`) is strictly unequal to every string.
   */
  predicate Matches(m: Mode, field: SearchBy, key: Option<string>)
  {
    key.Some? &&
    match field
    case ByName => m.name == key.value
    case ByCode => m.code == key.value
    case ByNameOrCode => m.name == key.value || m.code == key.value
  }

  /** `Array.prototype.find`: the first mode of `ms` that matches, or `undefined`. */
  function Find(ms: seq<Mode>, field: SearchBy, key: Option<string>): (r: Option<Mode>)
    ensures r.Some? ==> r.value in ms && Matches(r.value, field, key)
    ensures r.None? <==> forall m :: m in ms ==> !Matches(m, field, key)
    ensures r.Some? ==> exists i :: 0 <= i < |ms| && ms[i] == r.value &&
                                    forall j :: 0 <= j < i ==> !Matches(ms[j], field, key)
  {
    if |ms| == 0 then None
    else if Matches(ms[0], field, key) then Some(ms[0])
    else
      var r := Find(ms[1..], field, key);
      assert forall m :: m in ms ==> m == ms[0] || m in ms[1..];
      if r.Some? then
        var i :| 0 <= i < |ms[1..]| && ms[1..][i] == r.value &&
                 forall j :: 0 <= j < i ==> !Matches(ms[1..][j], field, key);
        assert ms[i + 1] == r.value;
        r
      else r
  }

  /** The lookup by display name only, as for the seeded system prompt and the parse mode. */
  function FindByName(key: Option<string>): Option<Mode>
  {
    Find(Table, ByName, key)
  }

  /** The lookup by display name or code, as in the clear command. */
  function FindByNameOrCode(key: Option<string>): Option<Mode>
  {
    Find(Table, ByNameOrCode, key)
  }

  /** The lookup by code, as for the initial session's system prompt. */
  function FindByCode(key: Option<string>): Option<Mode>
  {
    Find(Table, ByCode, key)
  }

  /** `?.promptStart`: the prompt of a found mode, `undefined` when the lookup missed. */
  function PromptStartOf(m: Option<Mode>): (r: Option<string>)
    ensures r.Some? <==> m.Some?
  {
    if m.Some? then Some(m.value.promptStart) else None
  }

  /** `?.parseMode`: the parse mode of a found mode, `undefined` when the lookup missed. */
  function ParseModeOf(m: Option<Mode>): (r: Option<ParseMode>)
    ensures r.Some? <==> m.Some?
  {
    if m.Some? then Some(m.value.parseMode) else None
  }

  /** There are exactly two modes, ASSISTANT first, and each has its own parse mode. */
  lemma TableShape()
    ensures |Table| == 2
    ensures Table[0].code == "ASSISTANT" && Table[0].parseMode == HTML
    ensures Table[1].code == "TECHNICAL_WRITER" && Table[1].parseMode == MarkdownV2
    ensures forall m :: m in Table ==> m.parseMode == HTML || m.parseMode == MarkdownV2
  {
  }

  /** Codes are pairwise distinct, names are pairwise distinct and no code is a name. */
  lemma KeysDistinct()
    ensures forall i, j :: 0 <= i < j < |Table| ==> Table[i].code != Table[j].code && Table[i].name != Table[j].name
    ensures forall m, n :: m in Table && n in Table ==> m.code != n.name
  {
    assert Table[0].code[0] == 'A' && Table[1].code[0] == 'T';
    assert Table[0].name[0] == 'A' && Table[1].name[0] == 'T';
    assert Table[0].code[1] == 'S' && Table[0].name[1] == 's';
    assert Table[1].code[1] == 'E' && Table[1].name[1] == 'e';
  }

  /** Every prompt is non-empty, so a successful lookup seeds a non-empty system message. */
  lemma PromptsNonEmpty()
    ensures forall m :: m in Table ==> |m.promptStart| > 0
  {
  }

  /**
   * Because keys are distinct, every single-field search finds the one mode that
   * carries the key, and the name-or-code search is never ambiguous.
   */
  lemma {:induction false} LookupUnique(field: SearchBy, key: Option<string>, m: Mode)
    requires m in Table && Matches(m, field, key)
    ensures Find(Table, field, key) == Some(m)
  {
    KeysDistinct();
  }

  /** What each lookup finds for each key the table holds. */
  lemma LookupTable()
    ensures FindByName(Some(Assistant.name)) == Some(Assistant)
    ensures FindByName(Some(TechnicalWriter.name)) == Some(TechnicalWriter)
    ensures FindByCode(Some("ASSISTANT")) == Some(Assistant)
    ensures FindByCode(Some("TECHNICAL_WRITER")) == Some(TechnicalWriter)
    ensures FindByNameOrCode(Some("ASSISTANT")) == Some(Assistant)
    ensures FindByNameOrCode(Some(TechnicalWriter.name)) == Some(TechnicalWriter)
    ensures FindByName(Some("ASSISTANT")) == None
    ensures FindByName(Some("TECHNICAL_WRITER")) == None
  {
    LookupUnique(ByName, Some(Assistant.name), Assistant);
    LookupUnique(ByName, Some(TechnicalWriter.name), TechnicalWriter);
    LookupUnique(ByCode, Some("ASSISTANT"), Assistant);
    LookupUnique(ByCode, Some("TECHNICAL_WRITER"), TechnicalWriter);
    LookupUnique(ByNameOrCode, Some("ASSISTANT"), Assistant);
    LookupUnique(ByNameOrCode, Some(TechnicalWriter.name), TechnicalWriter);
    KeysDistinct();
  }
}
