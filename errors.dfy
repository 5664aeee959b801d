/** Web-filesystem errors: a message is either an FMS message number or a text
    template whose `%N` markers name positional parameters. The text is expanded
    in two steps, as the constructor does: every `%<digits>` becomes a
    `{<digits>}` replacement field, and the result is formatted with the
    parameters by `str.format`. */
module Errors {
  import opened Wrappers
  import opened Strings
  import opened Values
  import opened WebServiceConnector

  // ---------------------------------------------------------------------------
  // step one: %N markers become {N} fields

  /** The length of the run of decimal digits that `s` starts with. */
  function DigitRun(s: string): (k: nat)
    ensures k <= |s|
    ensures forall i :: 0 <= i < k ==> IsDigit(s[i])
    ensures k == |s| || !IsDigit(s[k])
    decreases |s|
  {
    if |s| > 0 && IsDigit(s[0]) then 1 + DigitRun(s[1..]) else 0
  }

  /** Every `%` followed by one or more digits, taken greedily and left to right,
      becomes that run of digits in braces. */
  function MarkersToFields(s: string): string
    decreases |s|
  {
    if |s| == 0 then ""
    else if s[0] == '%' && DigitRun(s[1..]) > 0 then
      var k := DigitRun(s[1..]);
      "{" + s[1..1 + k] + "}" + MarkersToFields(s[1 + k..])
    else [s[0]] + MarkersToFields(s[1..])
  }

  // ---------------------------------------------------------------------------
  // step two: str.format with positional parameters

  /** `IndexError`: a field names a parameter that is not there. `FieldError`:
      a lone brace or a field that is not a plain index. */
  datatype FormatError = IndexError(index: nat) | FieldError

  /** `s.format(*params)` for templates whose fields are plain indices; doubled
      braces stand for one brace. */
  function PyFormat(s: string, params: seq<Value>): Result<string, FormatError>
    decreases |s|
  {
    if |s| == 0 then Success("")
    else if s[0] == '{' && |s| >= 2 && s[1] == '{' then
      var rest :- PyFormat(s[2..], params);
      Success("{" + rest)
    else if s[0] == '{' then
      var k := DigitRun(s[1..]);
      if 0 < k && 1 + k < |s| && s[1 + k] == '}' then
        var n := ParseDigits(s[1..1 + k]);
        if n < |params| then
          var rest :- PyFormat(s[2 + k..], params);
          Success(PyStr(params[n]) + rest)
        else Failure(IndexError(n))
      else Failure(FieldError)
    else if s[0] == '}' then
      if |s| >= 2 && s[1] == '}' then
        var rest :- PyFormat(s[2..], params);
        Success("}" + rest)
      else Failure(FieldError)
    else
      var rest :- PyFormat(s[1..], params);
      Success([s[0]] + rest)
  }

  /** The message text of a text template. */
  function Format(template: string, params: seq<Value>): Result<string, FormatError> {
    PyFormat(MarkersToFields(template), params)
  }

  // ---------------------------------------------------------------------------
  // the exceptions

  datatype Message = Number(n: int) | Text(s: string)

  /** `WebFilesystemError(message, params, details)`: missing parameters are the
      empty list; a number is kept as the message number with no text, and a
      text template is expanded with message number -1. */
  function WebFilesystemError(message: Message, params: Option<seq<Value>>, details: Option<string>)
    : (r: Result<WSCException, FormatError>)
    ensures message.Number? ==> r.Success? && r.value.messageNumber == message.n && r.value.message == ""
    ensures message.Text? ==> (r.Success? <==> Format(message.s, params.GetOr([])).Success?)
    ensures message.Text? && r.Success? ==>
              r.value.messageNumber == -1 && r.value.message == Format(message.s, params.GetOr([])).value
    ensures r.Success? ==> r.value.details == details
    ensures r.Success? && params.None? ==> r.value.messageParameters == []
    ensures r.Success? && params.Some? ==> |r.value.messageParameters| == |params.value|
    ensures r.Success? && params.Some? ==>
              forall i :: 0 <= i < |params.value| ==> r.value.messageParameters[i] == PyStr(params.value[i])
  {
    var ps := params.GetOr([]);
    match message
    case Number(n) => Success(NewException(n, Some(ps), details, ""))
    case Text(t) =>
      var text :- Format(t, ps);
      Success(NewException(-1, Some(ps), details, text))
  }

  /** A text message that formats is raised with number -1, the formatted text
      and the parameters as strings. */
  lemma TextErrorFields(t: string, ps: seq<Value>, details: Option<string>, msg: string)
    requires Format(t, ps) == Success(msg)
    ensures WebFilesystemError(Text(t), Some(ps), details).Success?
    ensures WebFilesystemError(Text(t), Some(ps), details).value ==
      NewException(-1, Some(ps), details, msg)
  {
  }

  /** The message template `%0: Could not find item '%1'`, written as its markers and literal parts. */
  const NotFoundTemplate: string := "%0" + ": Could not find item '" + "%1" + "'"

  function NotFoundError(prefix: string, itemId: string, details: Option<string>): Result<WSCException, FormatError> {
    WebFilesystemError(Text(NotFoundTemplate), Some([Str(prefix), Str(itemId)]), details)
  }

  /** The message template `%0: HTTP error %1 (%2) for URL %3`, written as its markers and literal parts. */
  const HttpErrorTemplate: string := "%0" + ": HTTP error " + "%1" + " (" + "%2" + ") for URL " + "%3"

  /** `WebFilesystemHTTPError`: the given details, or the response body when none are given. */
  function WebFilesystemHTTPError(serviceName: string, response: Response, details: Option<string>)
    : Result<WSCException, FormatError>
  {
    WebFilesystemError(
      Text(HttpErrorTemplate),
      Some([Str(serviceName), Int(response.status), Str(response.reason), Str(response.url)]),
      if details.Some? && details.value != "" then details else Some(response.text))
  }

  // ---------------------------------------------------------------------------
  // templates built from literal text and parameter markers

  /** A template as a sequence of pieces: literal text, or the marker `%N`. */
  datatype Piece = Lit(text: string) | Param(index: nat)

  function Render(pieces: seq<Piece>): string
    decreases |pieces|
  {
    if |pieces| == 0 then ""
    else match pieces[0]
      case Lit(t) => t + Render(pieces[1..])
      case Param(n) => "%" + NatToString(n) + Render(pieces[1..])
  }

  /** The same template after step one. */
  function RenderFields(pieces: seq<Piece>): string
    decreases |pieces|
  {
    if |pieces| == 0 then ""
    else match pieces[0]
      case Lit(t) => t + RenderFields(pieces[1..])
      case Param(n) => "{" + NatToString(n) + "}" + RenderFields(pieces[1..])
  }

  /** The intended message: each marker replaced by its parameter. */
  function Expand(pieces: seq<Piece>, params: seq<Value>): string
    requires forall i :: 0 <= i < |pieces| && pieces[i].Param? ==> pieces[i].index < |params|
    decreases |pieces|
  {
    if |pieces| == 0 then ""
    else match pieces[0]
      case Lit(t) => t + Expand(pieces[1..], params)
      case Param(n) => PyStr(params[n]) + Expand(pieces[1..], params)
  }

  /** Literal text with no marker sign and no brace. */
  predicate PlainText(t: string) {
    forall i :: 0 <= i < |t| ==> t[i] != '%' && t[i] != '{' && t[i] != '}'
  }

  /** Literal pieces are plain and non-empty, and a literal right after a marker
      does not start with a digit (it would extend the marker's number). */
  predicate WellFormed(pieces: seq<Piece>) {
    forall i :: 0 <= i < |pieces| && pieces[i].Lit? ==>
      PlainText(pieces[i].text) && |pieces[i].text| > 0 &&
      (i > 0 && pieces[i - 1].Param? ==> !IsDigit(pieces[i].text[0]))
  }

  predicate ParamsInRange(pieces: seq<Piece>, params: seq<Value>) {
    forall i :: 0 <= i < |pieces| && pieces[i].Param? ==> pieces[i].index < |params|
  }

  lemma {:induction false} MarkersToFieldsPlain(t: string, rest: string)
    requires PlainText(t)
    ensures MarkersToFields(t + rest) == t + MarkersToFields(rest)
    decreases |t|
  {
    if |t| > 0 {
      var s := t + rest;
      assert s[0] == t[0] && s[0] != '%';
      assert s[1..] == t[1..] + rest;
      MarkersToFieldsPlain(t[1..], rest);
      assert MarkersToFields(s) == [t[0]] + (t[1..] + MarkersToFields(rest));
      assert [t[0]] + t[1..] == t;
    } else {
      assert t + rest == rest;
    }
  }

  lemma {:induction false} DigitRunOf(d: string, rest: string)
    requires forall i :: 0 <= i < |d| ==> IsDigit(d[i])
    requires |rest| == 0 || !IsDigit(rest[0])
    ensures DigitRun(d + rest) == |d|
    decreases |d|
  {
    if |d| > 0 {
      assert (d + rest)[1..] == d[1..] + rest;
      DigitRunOf(d[1..], rest);
    }
  }

  /** A rendered template does not start with a digit. */
  lemma RenderStart(pieces: seq<Piece>)
    requires WellFormed(pieces)
    requires |pieces| > 0 && pieces[0].Lit? ==> !IsDigit(pieces[0].text[0])
    ensures |Render(pieces)| == 0 || !IsDigit(Render(pieces)[0])
  {
  }

  /** Step one turns every marker of a well-formed template into a field. */
  lemma {:induction false} MarkersToFieldsRender(pieces: seq<Piece>)
    requires WellFormed(pieces)
    ensures MarkersToFields(Render(pieces)) == RenderFields(pieces)
    decreases |pieces|
  {
    if |pieces| > 0 {
      var tail := pieces[1..];
      assert WellFormed(tail) by {
        forall i | 0 <= i < |tail| && tail[i].Lit?
          ensures PlainText(tail[i].text) && |tail[i].text| > 0 &&
                  (i > 0 && tail[i - 1].Param? ==> !IsDigit(tail[i].text[0]))
        {
          assert tail[i] == pieces[i + 1];
        }
      }
      MarkersToFieldsRender(tail);
      match pieces[0]
      case Lit(t) =>
        MarkersToFieldsPlain(t, Render(tail));
      case Param(n) =>
        RenderStart(tail);
        MarkerToField(NatToString(n), Render(tail));
    }
  }

  /** A marker followed by text that does not extend its number becomes one field. */
  lemma MarkerToField(d: string, r: string)
    requires |d| > 0 && forall i :: 0 <= i < |d| ==> IsDigit(d[i])
    requires |r| == 0 || !IsDigit(r[0])
    ensures MarkersToFields("%" + d + r) == "{" + d + "}" + MarkersToFields(r)
  {
    var s := "%" + d + r;
    assert s[0] == '%';
    assert s[1..] == d + r;
    DigitRunOf(d, r);
    assert s[1..1 + |d|] == d;
    assert s[1 + |d|..] == r;
  }

  lemma {:induction false} PyFormatPlain(t: string, rest: string, params: seq<Value>)
    requires PlainText(t)
    ensures PyFormat(t + rest, params) ==
      (if PyFormat(rest, params).Success? then Success(t + PyFormat(rest, params).value) else PyFormat(rest, params))
    decreases |t|
  {
    if |t| > 0 {
      var s := t + rest;
      assert s[0] == t[0] && s[0] != '{' && s[0] != '}';
      assert s[1..] == t[1..] + rest;
      PyFormatPlain(t[1..], rest, params);
      assert [t[0]] + t[1..] == t;
      if PyFormat(rest, params).Success? {
        assert [t[0]] + (t[1..] + PyFormat(rest, params).value) == t + PyFormat(rest, params).value;
      }
    } else {
      assert t + rest == rest;
      if PyFormat(rest, params).Success? {
        assert t + PyFormat(rest, params).value == PyFormat(rest, params).value;
      }
    }
  }

  /** Step two replaces every field of a well-formed template by its parameter. */
  lemma {:induction false} PyFormatFields(pieces: seq<Piece>, params: seq<Value>)
    requires WellFormed(pieces) && ParamsInRange(pieces, params)
    ensures PyFormat(RenderFields(pieces), params) == Success(Expand(pieces, params))
    decreases |pieces|
  {
    if |pieces| > 0 {
      var tail := pieces[1..];
      assert WellFormed(tail) by {
        forall i | 0 <= i < |tail| && tail[i].Lit?
          ensures PlainText(tail[i].text) && |tail[i].text| > 0 &&
                  (i > 0 && tail[i - 1].Param? ==> !IsDigit(tail[i].text[0]))
        {
          assert tail[i] == pieces[i + 1];
        }
      }
      assert ParamsInRange(tail, params) by {
        forall i | 0 <= i < |tail| && tail[i].Param? ensures tail[i].index < |params| {
          assert tail[i] == pieces[i + 1];
        }
      }
      PyFormatFields(tail, params);
      match pieces[0]
      case Lit(t) =>
        PyFormatPlain(t, RenderFields(tail), params);
      case Param(n) =>
        PyFormatField(n, RenderFields(tail), params);
    }
  }

  /** A field `{N}` is replaced by the N-th parameter, or is an IndexError when there is none. */
  lemma PyFormatField(n: nat, r: string, params: seq<Value>)
    ensures PyFormat("{" + NatToString(n) + "}" + r, params) ==
      if n >= |params| then Failure(IndexError(n))
      else if PyFormat(r, params).Success? then Success(PyStr(params[n]) + PyFormat(r, params).value)
      else PyFormat(r, params)
  {
    FieldShape(NatToString(n), n, r);
  }

  /** How `str.format` reads the field `{d}` at the head of a text. */
  lemma FieldShape(d: string, n: nat, r: string)
    requires d == NatToString(n)
    ensures var s := "{" + d + "}" + r;
            s[0] == '{' && s[1] != '{' && DigitRun(s[1..]) == |d| && 1 + |d| < |s| && s[1 + |d|] == '}' &&
            ParseDigits(s[1..1 + |d|]) == n && s[2 + |d|..] == r
  {
    var s := "{" + d + "}" + r;
    assert s[1] == d[0] && IsDigit(d[0]);
    assert s[1..] == d + ("}" + r);
    DigitRunOf(d, "}" + r);
    assert s[1..1 + |d|] == d;
    ParseNatToString(n);
    assert s[2 + |d|..] == r;
  }

  /** A well-formed template expands to its intended message: every `%N` is
      replaced by the N-th parameter and the literal text is kept. */
  lemma FormatTemplate(pieces: seq<Piece>, params: seq<Value>)
    requires WellFormed(pieces) && ParamsInRange(pieces, params)
    ensures Format(Render(pieces), params) == Success(Expand(pieces, params))
  {
    MarkersToFieldsRender(pieces);
    PyFormatFields(pieces, params);
  }

  /** A text without markers or braces is its own message. */
  lemma FormatPlainText(t: string, params: seq<Value>)
    requires PlainText(t)
    ensures Format(t, params) == Success(t)
  {
    MarkersToFieldsPlain(t, "");
    PyFormatPlain(t, "", params);
    assert t + "" == t;
  }

  /** A marker naming a missing parameter is an IndexError. */
  lemma FormatMissingParam(n: nat, params: seq<Value>)
    requires |params| <= n
    ensures Format("%" + NatToString(n) + "", params) == Failure(IndexError(n))
  {
    MarkersToFieldsRender([Param(n)]);
    assert Render([Param(n)]) == "%" + NatToString(n) + "";
    assert RenderFields([Param(n)]) == "{" + NatToString(n) + "}" + "";
    PyFormatField(n, "", params);
  }

  function NotFoundPieces(): seq<Piece> {
    [Param(0), Lit(": Could not find item '"), Param(1), Lit("'")]
  }

  lemma NotFoundPiecesWellFormed()
    ensures WellFormed(NotFoundPieces())
  {
    assert PlainText(": Could not find item '") && PlainText("'");
  }

  lemma NotFoundPiecesRender()
    ensures Render(NotFoundPieces()) == NotFoundTemplate
  {
    var a := ": Could not find item '";
    var b := "'";
    var p := NotFoundPieces();
    var p1 := p[1..];
    var p2 := p1[1..];
    var p3 := p2[1..];
    assert p3 == [Lit(b)];
    assert Render(p3) == b + "";
    assert p2 == [Param(1)] + p3;
    assert NatToString(1) == "1";
    assert Render(p2) == "%" + "1" + Render(p3);
    assert p1 == [Lit(a)] + p2;
    assert Render(p1) == a + Render(p2);
    assert NatToString(0) == "0";
    assert Render(p) == "%" + "0" + Render(p1);
    SpellNotFoundTemplate(a, b);
  }

  lemma SpellNotFoundTemplate(a: string, b: string)
    requires a == ": Could not find item '" && b == "'"
    ensures "%" + "0" + (a + ("%" + "1" + (b + ""))) == NotFoundTemplate
  {
    assert "%" + "0" == "%0" && "%" + "1" == "%1";
  }

  lemma NotFoundExpand(prefix: string, itemId: string)
    ensures ParamsInRange(NotFoundPieces(), [Str(prefix), Str(itemId)])
    ensures Expand(NotFoundPieces(), [Str(prefix), Str(itemId)]) == prefix + ": Could not find item '" + itemId + "'"
  {
    var p := NotFoundPieces();
    var params := [Str(prefix), Str(itemId)];
    var p1 := p[1..];
    var p2 := p1[1..];
    var p3 := p2[1..];
    assert p3 == [Lit("'")];
    assert Expand(p3, params) == "'" + "";
    assert p2 == [Param(1)] + p3;
    assert Expand(p2, params) == itemId + Expand(p3, params);
    assert p1 == [Lit(": Could not find item '")] + p2;
    assert Expand(p1, params) == ": Could not find item '" + Expand(p2, params);
    assert Expand(p, params) == prefix + Expand(p1, params);
    assert prefix + (": Could not find item '" + (itemId + ("'" + ""))) == prefix + ": Could not find item '" + itemId + "'";
  }

  lemma NotFoundMessage(prefix: string, itemId: string)
    ensures Format(NotFoundTemplate, [Str(prefix), Str(itemId)]) == Success(prefix + ": Could not find item '" + itemId + "'")
  {
    NotFoundPiecesWellFormed();
    NotFoundPiecesRender();
    NotFoundExpand(prefix, itemId);
    FormatTemplate(NotFoundPieces(), [Str(prefix), Str(itemId)]);
  }

  /** The not-found message reads `<prefix>: Could not find item '<id>'`. */
  lemma NotFoundText(prefix: string, itemId: string, details: Option<string>)
    ensures NotFoundError(prefix, itemId, details).Success?
    ensures NotFoundError(prefix, itemId, details).value.message == prefix + ": Could not find item '" + itemId + "'"
    ensures NotFoundError(prefix, itemId, details).value.messageNumber == -1
    ensures NotFoundError(prefix, itemId, details).value.messageParameters == [prefix, itemId]
    ensures NotFoundError(prefix, itemId, details).value.details == details
  {
    var ps := [Str(prefix), Str(itemId)];
    var msg := prefix + ": Could not find item '" + itemId + "'";
    NotFoundMessage(prefix, itemId);
    TextErrorFields(NotFoundTemplate, ps, details, msg);
    NotFoundFields(ps, prefix, itemId, details, msg);
  }

  lemma NotFoundFields(ps: seq<Value>, prefix: string, itemId: string, details: Option<string>, msg: string)
    requires ps == [Str(prefix), Str(itemId)]
    ensures NewException(-1, Some(ps), details, msg).messageParameters == [prefix, itemId]
    ensures NewException(-1, Some(ps), details, msg).message == msg
    ensures NewException(-1, Some(ps), details, msg).messageNumber == -1
    ensures NewException(-1, Some(ps), details, msg).details == details
  {
    var e := NewException(-1, Some(ps), details, msg);
    assert e.messageParameters[0] == prefix && e.messageParameters[1] == itemId;
  }

  function HttpErrorPieces(): seq<Piece> {
    [Param(0), Lit(": HTTP error "), Param(1), Lit(" ("), Param(2), Lit(") for URL "), Param(3)]
  }

  lemma HttpErrorPiecesWellFormed()
    ensures WellFormed(HttpErrorPieces())
  {
    assert PlainText(": HTTP error ") && PlainText(" (") && PlainText(") for URL ");
  }

  lemma HttpErrorPiecesRender()
    ensures Render(HttpErrorPieces()) == HttpErrorTemplate
  {
    var a := ": HTTP error ";
    var b := " (";
    var c := ") for URL ";
    var p := HttpErrorPieces();
    var p1 := p[1..];
    var p2 := p1[1..];
    var p3 := p2[1..];
    var p4 := p3[1..];
    var p5 := p4[1..];
    var p6 := p5[1..];
    assert p6 == [Param(3)];
    assert NatToString(3) == "3";
    assert Render(p6) == "%" + "3" + "";
    assert p5 == [Lit(c)] + p6;
    assert Render(p5) == c + Render(p6);
    assert p4 == [Param(2)] + p5;
    assert NatToString(2) == "2";
    assert Render(p4) == "%" + "2" + Render(p5);
    assert p3 == [Lit(b)] + p4;
    assert Render(p3) == b + Render(p4);
    assert p2 == [Param(1)] + p3;
    assert NatToString(1) == "1";
    assert Render(p2) == "%" + "1" + Render(p3);
    assert p1 == [Lit(a)] + p2;
    assert Render(p1) == a + Render(p2);
    assert NatToString(0) == "0";
    assert Render(p) == "%" + "0" + Render(p1);
    SpellHttpErrorTemplate(a, b, c);
  }

  lemma SpellHttpErrorTemplate(a: string, b: string, c: string)
    requires a == ": HTTP error " && b == " (" && c == ") for URL "
    ensures "%" + "0" + (a + ("%" + "1" + (b + ("%" + "2" + (c + ("%" + "3" + "")))))) == HttpErrorTemplate
  {
    assert "%" + "0" == "%0" && "%" + "1" == "%1" && "%" + "2" == "%2" && "%" + "3" + "" == "%3";
  }

  lemma HttpErrorParamsInRange(params: seq<Value>)
    requires |params| == 4
    ensures ParamsInRange(HttpErrorPieces(), params)
  {
  }

  lemma HttpErrorExpand(params: seq<Value>)
    requires |params| == 4
    requires ParamsInRange(HttpErrorPieces(), params)
    ensures Expand(HttpErrorPieces(), params) ==
      PyStr(params[0]) + ": HTTP error " + PyStr(params[1]) + " (" + PyStr(params[2]) + ") for URL " + PyStr(params[3])
  {
    var p := HttpErrorPieces();
    var s0, s1, s2, s3 := PyStr(params[0]), PyStr(params[1]), PyStr(params[2]), PyStr(params[3]);
    var p1 := p[1..];
    var p2 := p1[1..];
    var p3 := p2[1..];
    var p4 := p3[1..];
    var p5 := p4[1..];
    var p6 := p5[1..];
    assert p6 == [Param(3)];
    assert Expand(p6, params) == PyStr(params[3]) + "";
    assert p5 == [Lit(") for URL ")] + p6;
    assert Expand(p5, params) == ") for URL " + Expand(p6, params);
    assert p4 == [Param(2)] + p5;
    assert Expand(p4, params) == PyStr(params[2]) + Expand(p5, params);
    assert p3 == [Lit(" (")] + p4;
    assert Expand(p3, params) == " (" + Expand(p4, params);
    assert p2 == [Param(1)] + p3;
    assert Expand(p2, params) == PyStr(params[1]) + Expand(p3, params);
    assert p1 == [Lit(": HTTP error ")] + p2;
    assert Expand(p1, params) == ": HTTP error " + Expand(p2, params);
    assert Expand(p, params) == PyStr(params[0]) + Expand(p1, params);
    Assoc7(s0, ": HTTP error ", s1, " (", s2, ") for URL ", s3);
  }

  lemma Assoc7(x0: string, x1: string, x2: string, x3: string, x4: string, x5: string, x6: string)
    ensures x0 + (x1 + (x2 + (x3 + (x4 + (x5 + (x6 + "")))))) == x0 + x1 + x2 + x3 + x4 + x5 + x6
  {
  }

  lemma HttpErrorMessage(params: seq<Value>)
    requires |params| == 4
    ensures Format(HttpErrorTemplate, params) ==
      Success(PyStr(params[0]) + ": HTTP error " + PyStr(params[1]) + " (" + PyStr(params[2]) + ") for URL " + PyStr(params[3]))
  {
    HttpErrorPiecesWellFormed();
    HttpErrorPiecesRender();
    HttpErrorParamsInRange(params);
    HttpErrorExpand(params);
    FormatTemplate(HttpErrorPieces(), params);
  }

  /** The HTTP error message reads `<service>: HTTP error <status> (<reason>) for URL <url>`,
      and its details fall back to the response body. */
  lemma HttpErrorText(serviceName: string, response: Response, details: Option<string>)
    ensures WebFilesystemHTTPError(serviceName, response, details).Success?
    ensures WebFilesystemHTTPError(serviceName, response, details).value.message ==
      serviceName + ": HTTP error " + IntToString(response.status) + " (" + response.reason + ") for URL " + response.url
    ensures WebFilesystemHTTPError(serviceName, response, details).value.details ==
      (if details.Some? && details.value != "" then details else Some(response.text))
  {
    HttpErrorMessage([Str(serviceName), Int(response.status), Str(response.reason), Str(response.url)]);
  }
}
