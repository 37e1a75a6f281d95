/** Rendering of function definitions into the TypeScript-like text that the
    token counter charges for them, and of a function call into the raw
    text a GPT model emits for it. */
module TokenCounter {
  import opened Common
  import opened StrOrder

  /** The values a parameter schema holds, as far as the converter tells
      them apart: a string, a `[]string`, a nested `map[string]interface{}`,
      or anything else. */
  datatype Schema =
    | SStr(s: string)
    | SStrings(items: seq<string>)
    | SObject(fields: map<string, Schema>)
    | SOther

  /** `model.Function`. */
  datatype Function = Function(name: string, description: string, parameters: map<string, Schema>)

  /** One description line as a comment: `//`, then a space and the trimmed
      line unless it is blank. */
  function CommentText(line: string): (r: string)
    ensures |r| >= 2 && r[..2] == "//"
  {
    var t := TrimSpace(line);
    if |t| > 0 then "// " + t else "//"
  }

  /** The comment lines, each ended by a newline. */
  function CommentLines(lines: seq<string>): (r: string)
    ensures |r| == 0 <==> |lines| == 0
    ensures |r| > 0 ==> r[|r| - 1] == '\n'
  {
    if |lines| == 0 then ""
    else CommentLines(lines[..|lines| - 1]) + CommentText(lines[|lines| - 1]) + "\n"
  }

  /** `strings.Split(s, "\n")`. */
  function Lines(s: string): (r: seq<string>)
    ensures |r| >= 1
  {
    if |s| == 0 then [""]
    else
      var rest := Lines(s[1..]);
      if s[0] == '\n' then [""] + rest else [[s[0]] + rest[0]] + rest[1..]
  }

  /** A string without a newline is a single line. */
  lemma {:induction false} OneLine(s: string)
    requires !HasChar(s, '\n')
    ensures Lines(s) == [s]
    decreases |s|
  {
    if |s| > 0 {
      assert s[0] != '\n' && !HasChar(s[1..], '\n');
      OneLine(s[1..]);
      assert [s[0]] + s[1..] == s;
    }
  }

  /** No line holds a newline. */
  lemma {:induction false} LinesNoNewline(s: string)
    ensures forall i :: 0 <= i < |Lines(s)| ==> !HasChar(Lines(s)[i], '\n')
    decreases |s|
  {
    if |s| > 0 {
      LinesNoNewline(s[1..]);
      var rest := Lines(s[1..]);
      if s[0] != '\n' {
        assert !HasChar(rest[0], '\n');
      }
    }
  }

  lemma {:induction false} LinesAreSplit(s: string)
    ensures Lines(s) == Split(s, '\n')
    decreases |s|
  {
    if |s| > 0 {
      LinesAreSplit(s[1..]);
    }
  }

  /** The lines of the trimmed description. */
  function DescriptionLines(description: string): seq<string>
  {
    Lines(TrimSpace(description))
  }

  function DescriptionPrompt(description: string): string
  {
    CommentLines(DescriptionLines(description))
  }

  /** `descriptionToSystemPrompt`: the prompt grows by one comment line per
      line of the trimmed description. */
  method DescriptionToSystemPrompt(description: string) returns (prompt: string)
    ensures prompt == DescriptionPrompt(description)
  {
    var lines := Lines(TrimSpace(description));
    prompt := CommentEach(lines);
  }

  /** The loop of `descriptionToSystemPrompt` over the description's lines. */
  method CommentEach(lines: seq<string>) returns (prompt: string)
    ensures prompt == CommentLines(lines)
  {
    prompt := "";
    var i := 0;
    while i < |lines|
      invariant 0 <= i <= |lines|
      invariant prompt == CommentLines(lines[..i])
    {
      assert lines[..i + 1][..i] == lines[..i];
      var piece := CommentPiece(lines[i]);
      prompt := prompt + piece + "\n";
      i := i + 1;
    }
    assert lines[..i] == lines;
  }

  /** One iteration's comment text; the loop trims the line once more,
      which changes nothing. */
  method CommentPiece(line: string) returns (piece: string)
    ensures piece == CommentText(line)
  {
    var t := TrimSpace(line);
    TrimSpaceIdempotent(line);
    piece := "//";
    if |t| > 0 {
      piece := piece + " " + TrimSpace(t);
    }
  }

  lemma TrimSpaceIdempotent(s: string)
    ensures TrimSpace(TrimSpace(s)) == TrimSpace(s)
  {
    var t := TrimSpace(s);
    if |t| > 0 {
      assert TrimLeft(t) == t;
    }
  }

  /** Trimming keeps a slice of the string, so adds no character. */
  lemma TrimSpaceNoChar(s: string, c: char)
    requires !HasChar(s, c)
    ensures !HasChar(TrimSpace(s), c)
  {
  }

  /** Splitting at a separator splits the two sides apart. */
  lemma {:induction false} LinesAt(x: string, y: string)
    ensures Lines(x + ['\n'] + y) == Lines(x) + Lines(y)
    decreases |x|
  {
    if |x| == 0 {
      assert x + ['\n'] + y == "\n" + y;
    } else {
      assert (x + ['\n'] + y)[1..] == x[1..] + ['\n'] + y;
      LinesAt(x[1..], y);
    }
  }

  /** A comment line holds no newline when its description line holds none. */
  lemma CommentTextNoNewline(line: string)
    requires !HasChar(line, '\n')
    ensures !HasChar(CommentText(line), '\n')
  {
    var t := TrimSpace(line);
    assert !HasChar(t, '\n') by {
      TrimSpaceNoChar(line, '\n');
    }
    if |t| > 0 {
      assert !HasChar("// ", '\n');
      HasCharConcat("// ", t, '\n');
    } else {
      assert !HasChar("//", '\n');
    }
  }

  /** Appending a newline-free line and a newline to text that is empty or
      ends in a newline replaces the empty last piece by that line. */
  lemma SplitAppendLine(prev: string, c: string)
    requires !HasChar(c, '\n')
    requires |prev| == 0 || prev[|prev| - 1] == '\n'
    ensures |Lines(prev)| >= 1
    ensures Lines(prev + c + "\n") == Lines(prev)[..|Lines(prev)| - 1] + [c, ""]
  {
    assert Lines(c + "\n") == [c, ""] by {
      LinesAt(c, "");
      OneLine(c);
      assert c + "\n" == c + ['\n'] + "";
    }
    if |prev| == 0 {
      assert prev + c + "\n" == c + "\n";
    } else {
      var body := prev[..|prev| - 1];
      assert Lines(prev) == Lines(body) + [""] by {
        assert prev == body + ['\n'] + "";
        LinesAt(body, "");
      }
      assert Lines(prev + c + "\n") == Lines(body) + Lines(c + "\n") by {
        assert prev + c + "\n" == body + ['\n'] + (c + "\n");
        LinesAt(body, c + "\n");
      }
      assert Lines(prev)[..|Lines(prev)| - 1] == Lines(body);
    }
  }

  /** The comment text of each line. */
  function Texts(lines: seq<string>): (r: seq<string>)
    ensures |r| == |lines|
  {
    MapSeq(CommentText, lines)
  }

  /** The rendered description has exactly one line per description line:
      its comment text, and nothing after the last newline. */
  lemma {:induction false} CommentLinesSplit(lines: seq<string>)
    requires forall i :: 0 <= i < |lines| ==> !HasChar(lines[i], '\n')
    ensures var out := Lines(CommentLines(lines));
      |out| == |lines| + 1 && out[|lines|] == "" &&
      forall i :: 0 <= i < |lines| ==> out[i] == CommentText(lines[i])
    decreases |lines|
  {
    if |lines| > 0 {
      CommentLinesSplit(lines[..|lines| - 1]);
      CommentLinesStep(lines);
    }
    assert Lines(CommentLines(lines)) == Texts(lines) + [""];
  }

  /** One description line more: its comment follows the others'. */
  lemma CommentLinesStep(lines: seq<string>)
    requires |lines| > 0 && !HasChar(lines[|lines| - 1], '\n')
    requires Lines(CommentLines(lines[..|lines| - 1])) == Texts(lines[..|lines| - 1]) + [""]
    ensures Lines(CommentLines(lines)) == Texts(lines) + [""]
  {
    var n := |lines| - 1;
    var prev := CommentLines(lines[..n]);
    var c := CommentText(lines[n]);
    var before := Lines(prev);
    assert |before| == n + 1;
    assert Lines(prev + c + "\n") == before[..n] + [c, ""] by {
      CommentTextNoNewline(lines[n]);
      SplitAppendLine(prev, c);
    }
    assert CommentLines(lines) == prev + c + "\n";
    assert before[..n] == Texts(lines[..n]);
    assert before[..n] + [c] == Texts(lines) by {
      MapSeqSnoc(CommentText, lines);
    }
    AppendPair(before[..n], c, "");
  }

  /** `descriptionToSystemPrompt`'s output, read line by line: one comment
      per line of the trimmed description, `// ` and the trimmed line, or a
      bare `//` for a blank one. */
  lemma DescriptionPromptLines(description: string)
    ensures var lines := DescriptionLines(description);
      var out := Lines(DescriptionPrompt(description));
      |out| == |lines| + 1 && out[|lines|] == "" &&
      forall i :: 0 <= i < |lines| ==>
        (out[i] == "//" <==> TrimSpace(lines[i]) == "") &&
        (TrimSpace(lines[i]) != "" ==> out[i] == "// " + TrimSpace(lines[i]))
  {
    LinesNoNewline(TrimSpace(description));
    CommentLinesSplit(DescriptionLines(description));
  }

  /** `parameters["type"].(string)`, "" when missing or not a string. */
  function TypeOf(params: map<string, Schema>): string
  {
    if "type" in params && params["type"].SStr? then params["type"].s else ""
  }

  /** `parameters["required"].([]string)`, empty unless it is one. */
  function RequiredOf(params: map<string, Schema>): seq<string>
  {
    if "required" in params && params["required"].SStrings? then params["required"].items else []
  }

  /** Each enum value in double quotes. */
  function Quoted(enums: seq<string>): (r: seq<string>)
    ensures |r| == |enums|
    ensures forall i :: 0 <= i < |enums| ==> r[i] == "\"" + enums[i] + "\""
  {
    seq(|enums|, i requires 0 <= i < |enums| => "\"" + enums[i] + "\"")
  }

  /** A property's description comments, if it has a string description. */
  function PropertyDescription(property: map<string, Schema>): string
  {
    if "description" in property && property["description"].SStr? then DescriptionPrompt(property["description"].s)
    else ""
  }

  /** What `functionParametersToSystemPrompt` renders for a schema. */
  ghost function ParamsPrompt(p: Schema): (r: string)
    requires p.SObject?
    decreases p, 1, 0
  {
    var params := p.fields;
    var t := TypeOf(params);
    if t == "object" then
      var body :=
        if "properties" in params && params["properties"].SObject? then
          PropertiesPrompt(params["properties"], SortedSet(params["properties"].fields.Keys), RequiredOf(params))
        else "";
      "{\n" + body + "}"
    else if t == "string" then
      if "enum" in params && params["enum"].SStrings? then Join(Quoted(params["enum"].items), " | ") else "string"
    else t
  }

  /** The property lines for the given keys; properties that are not maps
      are skipped. */
  ghost function PropertiesPrompt(props: Schema, keys: seq<string>, required: seq<string>): string
    requires props.SObject?
    decreases props, 0, |keys|
  {
    if |keys| == 0 then ""
    else
      var key := keys[|keys| - 1];
      PropertiesPrompt(props, keys[..|keys| - 1], required) +
      (if key in props.fields && props.fields[key].SObject? then PropertyPrompt(props, key, required) else "")
  }

  /** One property: its description comments, the key, `?` unless it is
      required, and the nested rendering. */
  ghost function PropertyPrompt(props: Schema, key: string, required: seq<string>): string
    requires props.SObject? && key in props.fields && props.fields[key].SObject?
    decreases props, 0, 0
  {
    PropertyDescription(props.fields[key].fields) + key + (if key in required then "" else "?") +
    ": " + ParamsPrompt(props.fields[key]) + ",\n"
  }

  /** The map-valued keys among `keys`, in their order. */
  function MapValuedKeys(props: Schema, keys: seq<string>): (r: seq<string>)
    requires props.SObject?
    ensures forall k :: k in r <==> k in keys && k in props.fields && props.fields[k].SObject?
    decreases |keys|
  {
    if |keys| == 0 then []
    else
      var rest := MapValuedKeys(props, keys[..|keys| - 1]);
      var key := keys[|keys| - 1];
      if key in props.fields && props.fields[key].SObject? then rest + [key] else rest
  }

  /** Picking keys out of ascending keys keeps them ascending. */
  lemma {:induction false} MapValuedKeysSorted(props: Schema, keys: seq<string>)
    requires props.SObject? && Sorted(keys)
    ensures Sorted(MapValuedKeys(props, keys))
    decreases |keys|
  {
    if |keys| > 0 {
      var init := keys[..|keys| - 1];
      var key := keys[|keys| - 1];
      MapValuedKeysSorted(props, init);
      var rest := MapValuedKeys(props, init);
      forall i | 0 <= i < |rest|
        ensures Less(rest[i], key)
      {
        assert rest[i] in rest;
        var m :| 0 <= m < |init| && init[m] == rest[i];
      }
    }
  }

  /** The property lines of keys that are all map-valued, one after
      another in the given order. */
  ghost function PropertyLines(props: Schema, ks: seq<string>, required: seq<string>): string
    requires props.SObject? && forall k :: k in ks ==> k in props.fields && props.fields[k].SObject?
    decreases |ks|
  {
    if |ks| == 0 then ""
    else PropertyLines(props, ks[..|ks| - 1], required) + PropertyPrompt(props, ks[|ks| - 1], required)
  }

  /** The property loop renders exactly the map-valued keys, in order. */
  lemma {:induction false} PropertiesPromptLines(props: Schema, keys: seq<string>, required: seq<string>)
    requires props.SObject?
    ensures PropertiesPrompt(props, keys, required) == PropertyLines(props, MapValuedKeys(props, keys), required)
    decreases |keys|
  {
    if |keys| > 0 {
      var init := keys[..|keys| - 1];
      PropertiesPromptLines(props, init, required);
      var rest := MapValuedKeys(props, init);
      var key := keys[|keys| - 1];
      if key in props.fields && props.fields[key].SObject? {
        assert (rest + [key])[..|rest|] == rest;
      }
    }
  }

  /** An object schema renders as braces around one property line for
      each map-valued property, each key once and in ascending order;
      without a properties map it renders as empty braces. */
  lemma ObjectPrompt(p: Schema)
    requires p.SObject? && TypeOf(p.fields) == "object"
    ensures !("properties" in p.fields && p.fields["properties"].SObject?) ==> ParamsPrompt(p) == "{\n}"
    ensures ("properties" in p.fields && p.fields["properties"].SObject?) ==>
      var props := p.fields["properties"];
      var ks := MapValuedKeys(props, SortedSet(props.fields.Keys));
      (forall k :: k in ks <==> k in props.fields && props.fields[k].SObject?) && Sorted(ks) &&
      ParamsPrompt(p) == "{\n" + PropertyLines(props, ks, RequiredOf(p.fields)) + "}"
  {
    if "properties" in p.fields && p.fields["properties"].SObject? {
      var props := p.fields["properties"];
      PropertiesPromptLines(props, SortedSet(props.fields.Keys), RequiredOf(p.fields));
      MapValuedKeysSorted(props, SortedSet(props.fields.Keys));
    }
  }

  /** The enum slice rewritten to quoted values, entry by entry. */
  method QuoteEnums(enums: seq<string>) returns (quoted: seq<string>)
    ensures quoted == Quoted(enums)
  {
    quoted := enums;
    var i := 0;
    while i < |quoted|
      invariant 0 <= i <= |quoted| && |quoted| == |enums|
      invariant forall j :: 0 <= j < i ==> quoted[j] == "\"" + enums[j] + "\""
      invariant forall j :: i <= j < |quoted| ==> quoted[j] == enums[j]
    {
      quoted := quoted[i := "\"" + quoted[i] + "\""];
      i := i + 1;
    }
  }

  /** `functionParametersToSystemPrompt`: an object is braced around its
      property lines, a string is `string` or its quoted enum values, any
      other type is its name. */
  method FunctionParametersToSystemPrompt(p: Schema) returns (prompt: string)
    requires p.SObject?
    ensures prompt == ParamsPrompt(p)
    decreases p, 2
  {
    var params := p.fields;
    var t := TypeOf(params);
    if t == "object" {
      var required := RequiredOf(params);
      var body := "";
      if "properties" in params && params["properties"].SObject? {
        body := PropertiesToSystemPrompt(params["properties"], required);
      }
      prompt := "{\n" + body + "}";
    } else if t == "string" {
      if "enum" in params && params["enum"].SStrings? {
        var quoted := QuoteEnums(params["enum"].items);
        prompt := Join(quoted, " | ");
      } else {
        prompt := "string";
      }
    } else {
      prompt := t;
    }
  }

  /** The property loop: keys are collected and sorted, and each
      map-valued property is rendered in turn. */
  method PropertiesToSystemPrompt(props: Schema, required: seq<string>) returns (prompt: string)
    requires props.SObject?
    ensures prompt == PropertiesPrompt(props, SortedSet(props.fields.Keys), required)
    decreases props, 1
  {
    var keys := SortKeys(props.fields.Keys);
    prompt := "";
    var i := 0;
    while i < |keys|
      invariant 0 <= i <= |keys|
      invariant prompt == PropertiesPrompt(props, keys[..i], required)
    {
      var key := keys[i];
      PropertiesPromptSnoc(props, keys, i, required);
      if key in props.fields && props.fields[key].SObject? {
        var line := PropertyToSystemPrompt(props, key, required);
        prompt := prompt + line;
      }
      i := i + 1;
    }
    assert keys[..i] == keys;
  }

  /** One key more: its property's lines after the others'. */
  lemma PropertiesPromptSnoc(props: Schema, keys: seq<string>, i: int, required: seq<string>)
    requires props.SObject? && 0 <= i < |keys|
    ensures PropertiesPrompt(props, keys[..i + 1], required) ==
      PropertiesPrompt(props, keys[..i], required) +
      (if keys[i] in props.fields && props.fields[keys[i]].SObject? then PropertyPrompt(props, keys[i], required) else "")
  {
    assert keys[..i + 1][..i] == keys[..i];
  }

  /** The body of the property loop for one map-valued property: its
      description comments, the key, `?` unless required, `: ` and the
      nested rendering. */
  method PropertyToSystemPrompt(props: Schema, key: string, required: seq<string>) returns (prompt: string)
    requires props.SObject? && key in props.fields && props.fields[key].SObject?
    ensures prompt == PropertyPrompt(props, key, required)
    decreases props, 0
  {
    var property := props.fields[key];
    var description := "";
    if "description" in property.fields && property.fields["description"].SStr? {
      description := DescriptionToSystemPrompt(property.fields["description"].s);
    }
    var mark := if key in required then "" else "?";
    var nested := FunctionParametersToSystemPrompt(property);
    prompt := description + key + mark + ": " + nested + ",\n";
  }

  /** What `FunctionDefinitionToSystemPrompt` renders. */
  ghost function FunctionPrompt(definition: Function): string
  {
    DescriptionPrompt(definition.description) + "type " + definition.name + " = (" +
    (if |definition.parameters| > 0 then "_: " + ParamsPrompt(SObject(definition.parameters)) else "") +
    ") => any;"
  }

  /** `FunctionDefinitionToSystemPrompt`: description comments, then the
      type declaration, with a single `_` parameter only when there are
      parameters. */
  method FunctionDefinitionToSystemPrompt(definition: Function) returns (prompt: string)
    ensures prompt == FunctionPrompt(definition)
  {
    var description := DescriptionToSystemPrompt(definition.description);
    var params := "";
    if |definition.parameters| > 0 {
      var rendered := FunctionParametersToSystemPrompt(SObject(definition.parameters));
      params := "_: " + rendered;
    }
    prompt := description + "type " + definition.name + " = (" + params + ") => any;";
  }

  /** A one-line description without surrounding blanks is rendered as a
      single comment line. */
  lemma OneLineDescription(description: string)
    requires |description| > 0 && !IsSpace(description[0]) && !IsSpace(description[|description| - 1])
    requires !HasChar(description, '\n')
    ensures DescriptionPrompt(description) == "// " + description + "\n"
  {
    assert TrimLeft(description) == description;
    assert TrimRight(description) == description;
    OneLine(description);
    assert DescriptionLines(description) == [description];
    assert CommentLines([description]) == CommentLines([]) + CommentText(description) + "\n";
  }

  /** A rendered line with its mark right after description and key. */
  lemma MarkAfterKey(description: string, key: string, mark: string, nested: string)
    requires mark == "" || mark == "?"
    ensures var line := description + key + mark + ": " + nested + ",\n";
      var at := |description| + |key|;
      at < |line| && line[..at] == description + key && (line[at] == '?' <==> mark == "?")
  {
    var line := description + key + mark + ": " + nested + ",\n";
    assert line == (description + key) + (mark + ": " + nested + ",\n");
  }

  /** In a property line the key comes right after the description
      comments and is followed by `?` exactly when it is not required
      (by the `:` of `: ` otherwise). */
  lemma PropertyOptionalMark(props: Schema, key: string, required: seq<string>)
    requires props.SObject? && key in props.fields && props.fields[key].SObject?
    ensures var description := PropertyDescription(props.fields[key].fields);
      var line := PropertyPrompt(props, key, required);
      |description| + |key| < |line| && line[..|description| + |key|] == description + key &&
      (line[|description| + |key|] == '?' <==> key !in required)
  {
    var description := PropertyDescription(props.fields[key].fields);
    var mark := if key in required then "" else "?";
    MarkAfterKey(description, key, mark, ParamsPrompt(props.fields[key]));
  }

  /** `FunctionCallResponseToGPTRawOutput`: `functions.NAME(ARGS)`. */
  function FunctionCallResponseToGPTRawOutput(name: string, arguments: string): (r: string)
    ensures |r| == |name| + |arguments| + 12
    ensures r[..10] == "functions." && r[|r| - 1] == ')'
  {
    "functions." + name + "(" + arguments + ")"
  }

  /** The first position of a character, if any. */
  function IndexOf(s: string, c: char): (r: Option<nat>)
    ensures r.Some? ==> r.value < |s| && s[r.value] == c && !HasChar(s[..r.value], c)
    ensures r.None? ==> !HasChar(s, c)
  {
    if |s| == 0 then None
    else if s[0] == c then Some(0)
    else match IndexOf(s[1..], c)
      case None => None
      case Some(i) =>
        assert s[..i + 1] == [s[0]] + s[1..][..i];
        Some(i + 1)
  }

  /** Reading a raw call back: the name up to the first `(`, the arguments
      up to the final `)`. */
  function ParseRawOutput(s: string): Option<(string, string)>
  {
    if |s| < 12 || s[..10] != "functions." || s[|s| - 1] != ')' then None
    else
      var rest := s[10..|s| - 1];
      match IndexOf(rest, '(')
      case None => None
      case Some(i) => Some((rest[..i], rest[i + 1..]))
  }

  /** The raw output names the call unambiguously: reading it back gives
      the name and the arguments, for any name without `(`. */
  lemma RawOutputRoundTrip(name: string, arguments: string)
    requires !HasChar(name, '(')
    ensures ParseRawOutput(FunctionCallResponseToGPTRawOutput(name, arguments)) == Some((name, arguments))
  {
    var s := FunctionCallResponseToGPTRawOutput(name, arguments);
    var rest := s[10..|s| - 1];
    assert rest == name + "(" + arguments;
    var i := IndexOf(rest, '(');
    assert rest[|name|] == '(';
    if i.None? {
      assert HasChar(rest, '(');
    }
    assert i.value == |name|;
    assert rest[..|name|] == name;
    assert rest[|name| + 1..] == arguments;
  }
}
