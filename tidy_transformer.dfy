/**
 * TidyHtmlXmlTransformer: the format transformer that cleans HTML into XML with JTidy and
 * serializes it, through at most one configured XSLT stylesheet. JTidy and the XSLT engine
 * are abstract; what is modelled is the configuration it reads, the serializer settings it
 * chooses, and how its error writer trims the lines it logs.
 */
module TidyTransformer {
  import opened Wrappers
  import opened JavaLang
  import FormatConversion
  import Servlet

  const SOURCE_MIME_TYPE: string := "text/html"
  const TARGET_MIME_TYPE: string := "text/xml"
  const JTIDY_PREFIX: string := "jtidy."

  // ---------------------------------------------------------------- init

  /** The `jtidy.<k>` parameters, keyed by `<k>`, in the order the names are listed. */
  function TidyProps(params: map<string, string>, names: seq<string>): (props: map<string, string>)
    requires forall i :: 0 <= i < |names| ==> names[i] in params
    ensures forall k :: k in props ==> JTIDY_PREFIX + k in params && props[k] == params[JTIDY_PREFIX + k]
  {
    if names == [] then map[]
    else
      var n := names[|names| - 1];
      var props := TidyProps(params, names[..|names| - 1]);
      if StartsWith(n, JTIDY_PREFIX) then
        assert n == JTIDY_PREFIX + n[|JTIDY_PREFIX|..];
        props[n[|JTIDY_PREFIX|..] := params[n]]
      else props
  }

  /**
   * The bag holds exactly the keys `k` for which "jtidy." + k is a parameter name, each with
   * that parameter's value; parameters without the prefix contribute nothing.
   */
  lemma {:induction false} TidyPropsExact(params: map<string, string>, names: seq<string>)
    requires forall i :: 0 <= i < |names| ==> names[i] in params
    ensures forall k :: k in TidyProps(params, names) <==> JTIDY_PREFIX + k in names
    ensures forall k :: k in TidyProps(params, names) ==> TidyProps(params, names)[k] == params[JTIDY_PREFIX + k]
  {
    if names != [] {
      var prefix := names[..|names| - 1];
      var n := names[|names| - 1];
      TidyPropsExact(params, prefix);
      assert names == prefix + [n];
      if StartsWith(n, JTIDY_PREFIX) {
        var key := n[|JTIDY_PREFIX|..];
        assert n == JTIDY_PREFIX + key;
        forall k ensures JTIDY_PREFIX + k == n <==> k == key {
          if JTIDY_PREFIX + k == n {
            assert k == (JTIDY_PREFIX + k)[|JTIDY_PREFIX|..];
          }
        }
      } else {
        forall k ensures JTIDY_PREFIX + k != n {
          assert (JTIDY_PREFIX + k)[..|JTIDY_PREFIX|] == JTIDY_PREFIX;
        }
      }
    }
  }

  /** The `indent` parameter: kept as it was when absent, an Integer.parseInt result when present. */
  function IndentSetting(params: map<string, string>, current: Option<int>): (indent: Result<Option<int>, JavaException>)
    ensures "indent" !in params ==> indent == Ok(current)
    ensures indent.Err? ==> "indent" in params && indent.error == NumberFormat(params["indent"])
    ensures indent.Ok? && "indent" in params ==> indent.value.Some? && IsInt32(indent.value.value)
  {
    if "indent" !in params then Ok(current)
    else match ParseInt(params["indent"])
      case None => Err(NumberFormat(params["indent"]))
      case Some(n) => Ok(Some(n))
  }

  /**
   * The `templates` parameter: the URL string of the resource it names; a name the
   * resource lookup does not find is an IllegalArgumentException.
   */
  function TemplatesSetting(params: map<string, string>, resource: string -> Option<string>, current: Option<string>)
    : (systemId: Result<Option<string>, JavaException>)
    ensures "templates" !in params ==> systemId == Ok(current)
    ensures systemId.Err? ==> "templates" in params && resource(params["templates"]).None?
    ensures systemId.Ok? && "templates" in params ==> systemId.value.Some? && systemId.value == resource(params["templates"])
  {
    if "templates" !in params then Ok(current)
    else match resource(params["templates"])
      case None => Err(IllegalArgument(params["templates"] + ": no such template"))
      case Some(url) => Ok(Some(url))
  }

  /**
   * The settings as init reads them: an absent parameter changes nothing, "indent" is parsed
   * as a Java int (a rendered int reads back; "two" does not), and a template name must resolve.
   */
  lemma SettingValues(params: map<string, string>, resource: string -> Option<string>, n: int)
    requires IsInt32(n)
    ensures "indent" !in params ==> IndentSetting(params, None) == Ok(None)
    ensures IndentSetting(map["indent" := IntToString(n)], None) == Ok(Some(n))
    ensures IndentSetting(map["indent" := "two"], None) == Err(NumberFormat("two"))
    ensures "templates" in params && resource(params["templates"]).None? ==>
      TemplatesSetting(params, resource, None) == Err(IllegalArgument(params["templates"] + ": no such template"))
    ensures "templates" in params && resource(params["templates"]).Some? ==>
      TemplatesSetting(params, resource, None) == Ok(resource(params["templates"]))
  {
    ParseIntOfIntToString(n);
    assert !IsDigit('t');
  }

  // ---------------------------------------------------------------- transform

  /** One setOutputProperty(name, value) on the serializer. */
  datatype OutputProperty = OutputProperty(name: string, value: string)

  /** The serializer settings transform chooses: always XML in UTF-8, indented by 2 when an indent is configured. */
  function OutputProperties(indent: Option<int>): (props: seq<OutputProperty>)
    ensures |props| >= 2 && props[0] == OutputProperty("method", "xml") && props[1] == OutputProperty("encoding", "UTF-8")
    ensures forall i, j :: 0 <= i < j < |props| ==> props[i].name != props[j].name
  {
    [OutputProperty("method", "xml"), OutputProperty("encoding", "UTF-8")]
      + (if indent.Some? then
           [OutputProperty("{http://xml.apache.org/xslt}indent-amount", "2"), OutputProperty("indent", "yes")]
         else [])
  }

  /**
   * Method xml and encoding UTF-8 are always set; indentation is asked for exactly when an
   * indent is configured, and the configured number itself does not matter: the amount is 2.
   */
  lemma OutputPropertiesFacts(indent: Option<int>, a: int, b: int)
    ensures OutputProperty("method", "xml") in OutputProperties(indent)
    ensures OutputProperty("encoding", "UTF-8") in OutputProperties(indent)
    ensures OutputProperty("indent", "yes") in OutputProperties(indent) <==> indent.Some?
    ensures (exists v :: OutputProperty("{http://xml.apache.org/xslt}indent-amount", v) in OutputProperties(indent))
            <==> indent.Some?
    ensures OutputProperties(Some(a)) == OutputProperties(Some(b))
  {
    if indent.Some? {
      assert OutputProperties(indent)[2] == OutputProperty("{http://xml.apache.org/xslt}indent-amount", "2");
    }
  }

  /**
   * JTidy and the XSLT processor: whether a stylesheet compiles, and what parsing the
   * input with the tidy properties and serializing it (through the stylesheet, if any)
   * produces, or None when the processor throws a TransformerException.
   */
  datatype Engine = Engine(
    compiles: string -> bool,
    run: (map<string, string>, Option<string>, seq<OutputProperty>, seq<Byte>) -> Option<seq<Byte>>)

  /** The stylesheet transform uses: the configured one when it compiles, none without one. */
  function Stylesheet(engine: Engine, systemId: Option<string>): (sheet: Result<Option<string>, string>)
    ensures sheet.Ok? ==> sheet.value == systemId
    ensures sheet.Err? <==> systemId.Some? && !engine.compiles(systemId.value)
  {
    if systemId.None? then Ok(None)
    else if engine.compiles(systemId.value) then Ok(systemId)
    else Err("Failed to set up XML serializer")
  }

  /** The bytes transform writes; a failing stylesheet or serializer is logged and writes nothing. */
  function TransformOutput(engine: Engine, props: map<string, string>, systemId: Option<string>, indent: Option<int>,
                           input: seq<Byte>): (out: seq<Byte>)
    ensures Stylesheet(engine, systemId).Err? ==> out == []
    ensures out != [] ==> engine.run(props, systemId, OutputProperties(indent), input) == Some(out)
  {
    match Stylesheet(engine, systemId)
    case Err(_) => []
    case Ok(sheet) =>
      match engine.run(props, sheet, OutputProperties(indent), input)
      case None => []
      case Some(out) => out
  }

  /**
   * At most one stylesheet is applied, and it is the configured one: without a systemId the
   * serializer runs with none (the identity transform), with one it runs with exactly that
   * one or, if that one does not compile, not at all.
   */
  lemma AtMostOneStylesheet(engine: Engine, props: map<string, string>, systemId: Option<string>,
                            indent: Option<int>, input: seq<Byte>)
    ensures Stylesheet(engine, systemId).Ok? ==>
      Stylesheet(engine, systemId).value == systemId
      && TransformOutput(engine, props, systemId, indent, input)
         == match engine.run(props, systemId, OutputProperties(indent), input)
            case None => []
            case Some(out) => out
    ensures Stylesheet(engine, systemId).Err? <==> systemId.Some? && !engine.compiles(systemId.value)
    ensures Stylesheet(engine, systemId).Err? ==> TransformOutput(engine, props, systemId, indent, input) == []
  {
  }

  class TidyHtmlXmlTransformer {
    var systemId: Option<string>
    var templates: Option<string>
    var indent: Option<int>
    var tidyProps: Option<map<string, string>>

    constructor ()
      ensures systemId.None? && templates.None? && indent.None? && tidyProps.None?
    {
      systemId := None;
      templates := None;
      indent := None;
      tidyProps := None;
    }

    /**
     * init(cfg): reads indent, then templates, then collects the jtidy.* bag; the first
     * exception ends it, leaving the later fields as they were. `names` are the parameter
     * names, each of which has a value in `params`; `resource` is cfg.getResource.
     */
    method Init(params: map<string, string>, names: seq<string>, resource: string -> Option<string>)
      returns (failure: Option<JavaException>)
      requires forall i :: 0 <= i < |names| ==> names[i] in params
      modifies this
      ensures templates == old(templates)
      ensures IndentSetting(params, old(indent)).Err? ==>
        failure == Some(IndentSetting(params, old(indent)).error)
        && indent == old(indent) && systemId == old(systemId) && tidyProps == old(tidyProps)
      ensures IndentSetting(params, old(indent)).Ok? ==> indent == IndentSetting(params, old(indent)).value
      ensures IndentSetting(params, old(indent)).Ok? && TemplatesSetting(params, resource, old(systemId)).Err? ==>
        failure == Some(TemplatesSetting(params, resource, old(systemId)).error)
        && systemId == old(systemId) && tidyProps == old(tidyProps)
      ensures IndentSetting(params, old(indent)).Ok? && TemplatesSetting(params, resource, old(systemId)).Ok? ==>
        failure.None?
        && systemId == TemplatesSetting(params, resource, old(systemId)).value
        && tidyProps == Some(TidyProps(params, names))
    {
      var ind := IndentSetting(params, indent);
      if ind.Err? {
        return Some(ind.error);
      }
      indent := ind.value;
      var sid := TemplatesSetting(params, resource, systemId);
      if sid.Err? {
        return Some(sid.error);
      }
      systemId := sid.value;

      var props: map<string, string> := map[];
      var i := 0;
      while i < |names|
        invariant 0 <= i <= |names|
        invariant props == TidyProps(params, names[..i])
      {
        var n := names[i];
        assert names[..i + 1][..i] == names[..i];
        if StartsWith(n, JTIDY_PREFIX) {
          props := props[n[|JTIDY_PREFIX|..] := params[n]];
        }
        i := i + 1;
      }
      assert names[..|names|] == names;
      tidyProps := Some(props);
      failure := None;
    }

    /**
     * transform(is, os): drops the cached templates, compiles the configured stylesheet if
     * any, and serializes the tidied input with the chosen output properties.
     */
    method Transform(engine: Engine, input: seq<Byte>) returns (output: seq<Byte>)
      modifies this
      ensures templates == if Stylesheet(engine, systemId).Ok? then Stylesheet(engine, systemId).value else None
      ensures output == TransformOutput(engine, PropsOrEmpty(tidyProps), systemId, indent, input)
      ensures systemId == old(systemId) && indent == old(indent) && tidyProps == old(tidyProps)
    {
      templates := None;
      if systemId.Some? {
        if !engine.compiles(systemId.value) {
          return [];
        }
        templates := systemId;
      }
      var result := engine.run(PropsOrEmpty(tidyProps), templates, OutputProperties(indent), input);
      output := if result.Some? then result.value else [];
    }

    /** The transformer as the conversion filter uses it. */
    function AsTransformer(engine: Engine): (t: FormatConversion.Transformer)
      reads this
      ensures t.sourceMimeType == SOURCE_MIME_TYPE && t.targetMimeType == TARGET_MIME_TYPE
      ensures forall input :: t.transform(input) == TransformOutput(engine, PropsOrEmpty(tidyProps), systemId, indent, input)
    {
      var props, sheet, ind := PropsOrEmpty(tidyProps), systemId, indent;
      FormatConversion.Transformer(SOURCE_MIME_TYPE, TARGET_MIME_TYPE,
        input => TransformOutput(engine, props, sheet, ind, input))
    }
  }

  /** The tidy properties handed to JTidy; before init there are none. */
  function PropsOrEmpty(props: Option<map<string, string>>): map<string, string> {
    if props.Some? then props.value else map[]
  }

  /**
   * Behind the conversion filter, a 200 answer goes out labelled as converted from
   * text/html, typed text/xml, and carrying what the transformer made of the buffered bytes.
   */
  lemma ConvertedAnswer(tr: TidyHtmlXmlTransformer, engine: Engine, contentType: Option<string>,
                        contentLength: int, content: seq<Byte>)
    ensures var t := tr.AsTransformer(engine);
      var out := TransformOutput(engine, PropsOrEmpty(tr.tidyProps), tr.systemId, tr.indent, content);
      FormatConversion.PostProcessActions(t, 200, contentType, contentLength, Some(content))
        == [Servlet.AddHeader("X-Transformed-From", "text/html"), Servlet.SetContentType(Some("text/xml")),
            Servlet.SetContentLength(|out|), Servlet.WriteBody(out)]
  {
  }

  // ---------------------------------------------------------------- the error writer

  predicate IsEol(c: char) {
    c == '\n' || c == '\r'
  }

  /** The text without its trailing line terminators. */
  function StripEol(s: string): (r: string)
    ensures |r| <= |s| && r == s[..|r|]
    ensures r == [] || !IsEol(r[|r| - 1])
    ensures forall j :: |r| <= j < |s| ==> IsEol(s[j])
  {
    if s != [] && IsEol(s[|s| - 1]) then StripEol(s[..|s| - 1]) else s
  }

  /** What a write(cbuf, off, len) on the error writer logs: the chars without trailing newlines, or nothing. */
  function Logged(cbuf: seq<char>, off: int, len: int): Option<string>
    requires 0 <= off && 0 <= len && off + len <= |cbuf|
  {
    var line := StripEol(cbuf[off..off + len]);
    if line == [] then None else Some(line)
  }

  /** What the error writer as written logs: the trailing newlines are looked for at cbuf[len - 1], not cbuf[off + len - 1]. */
  function LoggedAsWritten(cbuf: seq<char>, off: int, len: int): (logged: Option<string>)
    requires 0 <= off && 0 <= len && off + len <= |cbuf|
    ensures logged.None? <==> forall j :: 0 <= j < len ==> IsEol(cbuf[j])
    ensures logged.Some? ==> |logged.value| <= len && logged.value == cbuf[off..off + |logged.value|]
  {
    var kept := |StripEol(cbuf[..len])|;
    if kept == 0 then None else Some(cbuf[off..off + kept])
  }

  /** The error writer's write method, as written: the loop tests cbuf[len - 1]. */
  method ErroutWriteAsWritten(cbuf: seq<char>, off: int, len0: int) returns (logged: Option<string>)
    requires 0 <= off && 0 <= len0 && off + len0 <= |cbuf|
    ensures logged == LoggedAsWritten(cbuf, off, len0)
  {
    var len := len0;
    while len > 0 && IsEol(cbuf[len - 1])
      invariant 0 <= len <= len0
      invariant StripEol(cbuf[..len]) == StripEol(cbuf[..len0])
    {
      assert cbuf[..len][..len - 1] == cbuf[..len - 1];
      len := len - 1;
    }
    if len > 0 {
      logged := Some(cbuf[off..off + len]);
    } else {
      logged := None;
    }
  }

  /** The error writer's write method with the newline test at the end of the range it was given. */
  method ErroutWrite(cbuf: seq<char>, off: int, len0: int) returns (logged: Option<string>)
    requires 0 <= off && 0 <= len0 && off + len0 <= |cbuf|
    ensures logged == Logged(cbuf, off, len0)
  {
    var len := len0;
    while len > 0 && IsEol(cbuf[off + len - 1])
      invariant 0 <= len <= len0
      invariant StripEol(cbuf[off..off + len]) == StripEol(cbuf[off..off + len0])
    {
      assert cbuf[off..off + len][..len - 1] == cbuf[off..off + len - 1];
      len := len - 1;
    }
    if len > 0 {
      logged := Some(cbuf[off..off + len]);
    } else {
      logged := None;
    }
  }

  /**
   * The logged line is the given chars minus only their trailing newlines, and nothing is
   * logged when nothing else remains.
   */
  lemma LoggedTrims(cbuf: seq<char>, off: int, len: int)
    requires 0 <= off && 0 <= len && off + len <= |cbuf|
    ensures Logged(cbuf, off, len).None? <==> forall j :: off <= j < off + len ==> IsEol(cbuf[j])
    ensures Logged(cbuf, off, len).Some? ==>
      var line := Logged(cbuf, off, len).value;
      && cbuf[off..off + len] == line + cbuf[off + |line|..off + len]
      && !IsEol(line[|line| - 1])
      && forall j :: off + |line| <= j < off + len ==> IsEol(cbuf[j])
  {
    var s := cbuf[off..off + len];
    var line := StripEol(s);
    if line == [] {
      forall j | off <= j < off + len ensures IsEol(cbuf[j]) {
        assert s[j - off] == cbuf[j];
      }
    } else {
      assert !IsEol(s[|line| - 1]);
      assert s == line + s[|line|..];
      forall j | off + |line| <= j < off + len ensures IsEol(cbuf[j]) {
        assert s[j - off] == cbuf[j];
      }
    }
  }

  /**
   * With an offset the written error writer misreads the range: for cbuf "\na", off 1 and
   * len 1 it tests the '\n' before the range, drops the 'a' and logs nothing. From offset
   * 0 the two agree.
   */
  lemma ErroutOffsetFinding()
    ensures LoggedAsWritten("\na", 1, 1) == None
    ensures Logged("\na", 1, 1) == Some("a")
  {
    assert "\na"[..1] == "\n";
    assert StripEol("\n"[..0]) == [];
    assert "\na"[1..2] == "a";
    assert StripEol("a") == "a";
  }

  /** From offset 0, the case in which the range starts the buffer, the two agree. */
  lemma LoggedAgreeAtZero(cbuf: seq<char>, len: int)
    requires 0 <= len <= |cbuf|
    ensures LoggedAsWritten(cbuf, 0, len) == Logged(cbuf, 0, len)
  {
    var line := StripEol(cbuf[0..len]);
    assert cbuf[..len] == cbuf[0..len];
    assert cbuf[0..0 + |line|] == line;
  }
}
