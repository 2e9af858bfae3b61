// How the replay caches normalise items. An item is a JSON object that is already parsed, of which only the fields
// that the normalisers read or write are kept.
module ReplayItems {
  import opened Text
  import opened Resp

  // A JSON value: a string; a number, with its text and its value as an integer; null; or the text of anything else.
  datatype Json = Str(text: string) | Num(text: string, value: int) | Null | Raw(text: string)

  type Field = Option<Json>

  datatype Item = Item(
    kind: Field, summary: Field, content: Field, encryptedContent: Field, callId: Field, id: Field, name: Field,
    arguments: Field, input: Field, status: Field, args: Field, thoughtSignature: Field, thought_signature: Field,
    contentIndex: Field, partIndex: Field, functionCall: Option<Call>)

  // The nested function call of an antigravity item; a value that is no object has none of the fields.
  datatype Call = Call(id: Field, name: Field, args: Field)

  const EMPTY := Item(None, None, None, None, None, None, None, None, None, None, None, None, None, None, None, None)

  // A field read as text; a missing field and null read as the empty string.
  function TextOf(f: Field): string {
    if f.None? || f.value.Null? then "" else f.value.text
  }

  function Trimmed(f: Field): string {
    TrimSpace(TextOf(f))
  }

  function Quoted(s: string): Field {
    Some(Str(s))
  }

  predicate IsString(f: Field) {
    f.Some? && f.value.Str?
  }

  // ---------- codex and xai ----------

  // inspect tells which encrypted contents are genuine.
  function Reasoning(inspect: string -> bool, item: Item): Option<Item> {
    if !IsString(item.encryptedContent) then None
    else
      var content := item.encryptedContent.value.text;
      if content != TrimSpace(content) || !inspect(content) then None
      else Some(EMPTY.(kind := Quoted("reasoning"), summary := Some(Raw("[]")), content := Some(Null),
                       encryptedContent := Quoted(content)))
  }

  function FunctionCall(item: Item): Option<Item> {
    var callId, name := Trimmed(item.callId), Trimmed(item.name);
    if callId == "" || name == "" || !IsString(item.arguments) then None
    else Some(EMPTY.(kind := Quoted("function_call"), callId := Quoted(callId), name := Quoted(name), arguments := item.arguments))
  }

  function CustomToolCall(item: Item): Option<Item> {
    var callId, name, status := Trimmed(item.callId), Trimmed(item.name), Trimmed(item.status);
    if callId == "" || name == "" || item.input.None? then None
    else Some(EMPTY.(kind := Quoted("custom_tool_call"), status := Quoted(if status != "" then status else "completed"),
                     callId := Quoted(callId), name := Quoted(name), input := item.input))
  }

  function NormalizeCodex(inspect: string -> bool, item: Item): Option<Item> {
    var kind := Trimmed(item.kind);
    if kind == "reasoning" then Reasoning(inspect, item)
    else if kind == "function_call" then FunctionCall(item)
    else if kind == "custom_tool_call" then CustomToolCall(item)
    else None
  }

  // ---------- antigravity ----------

  const MIN_SIGNATURE := 16

  // An index is kept when it is a number, as an integer.
  function Index(f: Field): Field {
    if f.Some? && f.value.Num? then Some(Num(Itoa(f.value.value), f.value.value)) else None
  }

  function FirstText(a: string, b: string): string {
    if a != "" then a else b
  }

  function NotEmpty(s: string): Field {
    if s != "" then Quoted(s) else None
  }

  function ThoughtSignature(item: Item): Option<Item> {
    var sig := FirstText(Trimmed(item.thoughtSignature), Trimmed(item.thought_signature));
    if sig == "" || |sig| < MIN_SIGNATURE then None
    else Some(EMPTY.(kind := Quoted("thought_signature"), thoughtSignature := Quoted(sig),
                     contentIndex := Index(item.contentIndex), partIndex := Index(item.partIndex)))
  }

  function FunctionCallPart(item: Item): Option<Item> {
    var nested := if (Trimmed(item.name) == "" || item.args.None?) && item.functionCall.Some? then item.functionCall.value
                  else Call(None, None, None);
    var callId := FirstText(FirstText(Trimmed(item.callId), Trimmed(item.id)), Trimmed(nested.id));
    var name := FirstText(Trimmed(item.name), Trimmed(nested.name));
    var args := if item.args.Some? then item.args else nested.args;
    if name == "" || args.None? then None
    else Some(EMPTY.(kind := Quoted("function_call_part"), callId := NotEmpty(callId), name := Quoted(name), args := args,
                     thoughtSignature := NotEmpty(Trimmed(item.thoughtSignature)),
                     contentIndex := Index(item.contentIndex), partIndex := Index(item.partIndex)))
  }

  function NormalizeAntigravity(item: Item): Option<Item> {
    var kind := Trimmed(item.kind);
    if kind == "thought_signature" then ThoughtSignature(item)
    else if kind == "function_call_part" then FunctionCallPart(item)
    else None
  }

  // ---------- a normalised item is its own normal form ----------

  lemma NothingToTrim(s: string)
    requires s != "" && !IsSpace(s[0]) && !IsSpace(s[|s| - 1])
    ensures TrimSpace(s) == s
  {
  }

  lemma TrimmedText(f: Field)
    ensures Trimmed(Quoted(Trimmed(f))) == Trimmed(f) && Trimmed(NotEmpty(Trimmed(f))) == Trimmed(f)
  {
    TrimTwice(TextOf(f));
    assert TrimSpace("") == "";
  }

  lemma ReasoningNormalForm(inspect: string -> bool, item: Item)
    requires Reasoning(inspect, item).Some?
    ensures NormalizeCodex(inspect, Reasoning(inspect, item).value) == Reasoning(inspect, item)
  {
    NothingToTrim("reasoning");
  }

  lemma FunctionCallNormalForm(inspect: string -> bool, item: Item)
    requires FunctionCall(item).Some?
    ensures NormalizeCodex(inspect, FunctionCall(item).value) == FunctionCall(item)
  {
    NothingToTrim("function_call");
    TrimmedText(item.callId);
    TrimmedText(item.name);
  }

  lemma CustomToolCallNormalForm(inspect: string -> bool, item: Item)
    requires CustomToolCall(item).Some?
    ensures NormalizeCodex(inspect, CustomToolCall(item).value) == CustomToolCall(item)
  {
    NothingToTrim("custom_tool_call");
    NothingToTrim("completed");
    TrimmedText(item.callId);
    TrimmedText(item.name);
    TrimmedText(item.status);
  }

  // What a lookup gives back can be stored again and comes out unchanged.
  lemma CodexNormalForm(inspect: string -> bool, item: Item)
    requires NormalizeCodex(inspect, item).Some?
    ensures NormalizeCodex(inspect, NormalizeCodex(inspect, item).value) == NormalizeCodex(inspect, item)
  {
    var kind := Trimmed(item.kind);
    if kind == "reasoning" {
      ReasoningNormalForm(inspect, item);
    } else if kind == "function_call" {
      FunctionCallNormalForm(inspect, item);
    } else {
      CustomToolCallNormalForm(inspect, item);
    }
  }

  lemma AntigravityNormalForm(item: Item)
    requires NormalizeAntigravity(item).Some?
    ensures NormalizeAntigravity(NormalizeAntigravity(item).value) == NormalizeAntigravity(item)
  {
    if Trimmed(item.kind) == "thought_signature" {
      NothingToTrim("thought_signature");
      TrimmedText(item.thoughtSignature);
      TrimmedText(item.thought_signature);
    } else {
      FunctionCallPartNormalForm(item);
    }
  }

  // A function call part holds trimmed texts only, and none of a nested call.
  predicate TrimmedPart(item: Item) {
    item.kind == Quoted("function_call_part") && item.functionCall.None? && item.id.None? && item.args.Some? &&
    NotEmpty(Trimmed(item.callId)) == item.callId && Quoted(Trimmed(item.name)) == item.name && Trimmed(item.name) != "" &&
    NotEmpty(Trimmed(item.thoughtSignature)) == item.thoughtSignature &&
    Index(item.contentIndex) == item.contentIndex && Index(item.partIndex) == item.partIndex &&
    item == EMPTY.(kind := item.kind, callId := item.callId, name := item.name, args := item.args,
                   thoughtSignature := item.thoughtSignature, contentIndex := item.contentIndex, partIndex := item.partIndex)
  }

  lemma PartIsTrimmed(item: Item)
    requires FunctionCallPart(item).Some?
    ensures TrimmedPart(FunctionCallPart(item).value)
  {
    assert TrimSpace("") == "";
    TrimmedText(item.callId);
    TrimmedText(item.id);
    TrimmedText(item.name);
    TrimmedText(item.thoughtSignature);
    if item.functionCall.Some? {
      TrimmedText(item.functionCall.value.id);
      TrimmedText(item.functionCall.value.name);
    }
  }

  lemma KindStays(kind: Field)
    requires kind == Quoted("function_call_part")
    ensures Trimmed(kind) == "function_call_part"
  {
    NothingToTrim("function_call_part");
  }

  lemma NothingTrimmed()
    ensures TrimSpace("") == ""
  {
  }

  lemma TrimmedPartStays(item: Item)
    requires TrimmedPart(item)
    ensures FunctionCallPart(item) == Some(item)
  {
    KindStays(item.kind);
    NothingTrimmed();
  }

  lemma FunctionCallPartNormalForm(item: Item)
    requires FunctionCallPart(item).Some?
    ensures NormalizeAntigravity(FunctionCallPart(item).value) == FunctionCallPart(item)
  {
    PartIsTrimmed(item);
    KindStays(FunctionCallPart(item).value.kind);
    TrimmedPartStays(FunctionCallPart(item).value);
  }

  // ---------- which items are kept, and what survives ----------

  // The text of a field, without the white space around it
  function Bare(f: Field): string {
    match f
    case Some(Str(text)) => TrimSpace(text)
    case Some(Num(text, _)) => TrimSpace(text)
    case Some(Raw(text)) => TrimSpace(text)
    case _ => TrimSpace("")
  }

  // Exactly these codex items are kept: a reasoning whose encrypted content is a genuine text without white space
  // around it, a function call with a call id, a name and textual arguments, and a custom tool call with a call id, a
  // name and an input. All of these fields survive.
  lemma CodexKept(inspect: string -> bool, item: Item)
    ensures var r, kind := NormalizeCodex(inspect, item), Bare(item.kind);
      (r.Some? <==>
        (kind == "reasoning" &&
          match item.encryptedContent case Some(Str(text)) => TrimSpace(text) == text && inspect(text) case _ => false)
        || (kind == "function_call" && Bare(item.callId) != "" && Bare(item.name) != "" &&
            item.arguments.Some? && item.arguments.value.Str?)
        || (kind == "custom_tool_call" && Bare(item.callId) != "" && Bare(item.name) != "" && item.input.Some?)) &&
      (r.Some? ==>
        r.value.kind == Some(Str(kind)) &&
        (kind == "reasoning" ==> r.value.encryptedContent == item.encryptedContent) &&
        (kind != "reasoning" ==> r.value.callId == Some(Str(Bare(item.callId))) && r.value.name == Some(Str(Bare(item.name)))) &&
        (kind == "function_call" ==> r.value.arguments == item.arguments) &&
        (kind == "custom_tool_call" ==>
          r.value.input == item.input &&
          r.value.status == Some(Str(if Bare(item.status) != "" then Bare(item.status) else "completed"))))
  {
  }

  // The fields of a nested call count where the item itself lacks a name or arguments.
  function Nested(item: Item): Call {
    if (Bare(item.name) == "" || item.args.None?) && item.functionCall.Some? then item.functionCall.value
    else Call(None, None, None)
  }

  // Exactly these antigravity items are kept: a thought signature of at least 16 bytes, in either spelling, and a part
  // with a function call that has a name and arguments, be they its own or those of the nested call.
  lemma AntigravityKept(item: Item)
    ensures var r, kind := NormalizeAntigravity(item), Bare(item.kind);
      var signature := if Bare(item.thoughtSignature) != "" then Bare(item.thoughtSignature) else Bare(item.thought_signature);
      var nested := Nested(item);
      (r.Some? <==>
        (kind == "thought_signature" && |signature| >= 16)
        || (kind == "function_call_part" &&
            (Bare(item.name) != "" || Bare(nested.name) != "") && (item.args.Some? || nested.args.Some?))) &&
      (r.Some? ==> r.value.kind == Some(Str(kind))) &&
      (r.Some? && kind == "thought_signature" ==> r.value.thoughtSignature == Some(Str(signature))) &&
      (r.Some? && kind == "function_call_part" ==>
        r.value.name == Some(Str(if Bare(item.name) != "" then Bare(item.name) else Bare(nested.name))) &&
        r.value.args == if item.args.Some? then item.args else nested.args)
  {
  }

  // An index that is a number survives, as an integer; nothing else does.
  predicate IndexKept(was: Field, now: Field) {
    match was
    case Some(Num(_, n)) => now == Some(Num(Itoa(n), n))
    case _ => now.None?
  }

  lemma IndexesKept(item: Item)
    requires NormalizeAntigravity(item).Some?
    ensures IndexKept(item.contentIndex, NormalizeAntigravity(item).value.contentIndex)
    ensures IndexKept(item.partIndex, NormalizeAntigravity(item).value.partIndex)
  {
  }

  // The call id of a part is the first that is not blank: its own, its id, or the id of the nested call.
  lemma PartCallId(item: Item)
    requires NormalizeAntigravity(item).Some? && Bare(item.kind) == "function_call_part"
    ensures var r, nested := NormalizeAntigravity(item).value, Nested(item);
      r.callId == if Bare(item.callId) != "" then Some(Str(Bare(item.callId)))
                  else if Bare(item.id) != "" then Some(Str(Bare(item.id)))
                  else if Bare(nested.id) != "" then Some(Str(Bare(nested.id))) else None
  {
  }
}
