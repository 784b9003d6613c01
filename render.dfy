/** The rendering of a search reply: the MG_EV_HTTP_REPLY branch of
    connectionHandler. The reply is the tree jsoncpp parsed from the body; the
    output is what the handler writes to standard output. */
module Render {
  import opened Basics
  import opened Strings
  import opened JsonTree
  import opened Registry
  import Ansi

  /** How handling a reply ends. */
  datatype Outcome =
    | Output(text: string)
      // the handler returns after writing `text`
    | Terminated(written: string)
      // a jsoncpp exception escapes the handler (outside its try block) after
      // `written` was written; the process ends in std::terminate
    | Undefined
      // execution reaches undefined behaviour (an empty field string indexed
      // at size() - 1)

  /** `o`, with `prefix` written before it. */
  function After(prefix: string, o: Outcome): Outcome
  {
    match o
    case Output(t) => Output(prefix + t)
    case Terminated(t) => Terminated(prefix + t)
    case Undefined => Undefined
  }

  lemma AfterAfter(a: string, b: string, o: Outcome)
    ensures After(a, After(b, o)) == After(a + b, o)
  {
    match o
    case Output(t) => assert a + (b + t) == (a + b) + t;
    case Terminated(t) => assert a + (b + t) == (a + b) + t;
    case Undefined =>
  }

  /** `r` with `prefix` written before it. */
  function PrefixText(prefix: string, r: Option<string>): Option<string>
  {
    match r
    case None => None
    case Some(t) => Some(prefix + t)
  }

  /** `first`, then `next` if `first` returned normally. */
  function AndThen(first: Outcome, next: Outcome): Outcome
  {
    match first
    case Output(t) => After(t, next)
    case _ => first
  }

  lemma PrefixTextAppend(a: string, b: string, r: Option<string>)
    ensures PrefixText(a, PrefixText(b, r)) == PrefixText(a + b, r)
  {
    if r.Some? {
      assert a + (b + r.value) == (a + b) + r.value;
    }
  }

  lemma PrefixTextEmpty(r: Option<string>)
    ensures PrefixText("", r) == r
  {
    if r.Some? {
      assert "" + r.value == r.value;
    }
  }

  // ---------------------------------------------------------------- errors

  /** One line for one `error.root_cause` entry. */
  function ErrorLine(errorType: string, reason: string): string
  {
    Ansi.Red + "error: " + Ansi.Reset + errorType + ", " + reason + "\n"
  }

  /** The lines for root causes i, i+1, ..., n-1: `reason` is read before `type`,
      and a read that throws ends the process (the loop is outside the try). */
  function ErrorsFrom(causes: Json, i: nat, n: nat): Outcome
    requires i <= n
    decreases n - i
  {
    if i == n then Output("")
    else match At(causes, i)
      case Throws => Terminated("")
      case Ok(cause) =>
        match CauseText(cause)
        case None => Terminated("")
        case Some(line) => AndThen(Output(line), ErrorsFrom(causes, i + 1, n))
  }

  /** The error line for one root cause, or None when reading it throws. */
  function CauseText(cause: Json): Option<string>
  {
    match (Key(cause, "reason"), Key(cause, "type"))
    case (Ok(r), Ok(t)) =>
      (match (AsString(r), AsString(t))
       case (Some(reason), Some(errorType)) => Some(ErrorLine(errorType, reason))
       case _ => None)
    case _ => None
  }

  /** The zero-hit branch: every `error.root_cause` entry in order. */
  function ErrorReport(reply: Json): Outcome
  {
    match Key(reply, "error")
    case Throws => Terminated("")
    case Ok(e) =>
      match Key(e, "root_cause")
      case Throws => Terminated("")
      case Ok(causes) => ErrorsFrom(causes, 0, Size(causes))
  }

  // ---------------------------------------------------------------- fields

  /** The colour the LogLevel comparison chooses; none for other levels. */
  function LevelColour(level: string): (c: string)
    ensures c == Ansi.Red <==> level == "Error" || level == "Emergency"
    ensures c == Ansi.Yellow <==> level == "Warning"
    ensures c == Ansi.Green <==> level == "Info"
    ensures c == Ansi.Magenta <==> level == "Debug"
    ensures c == "" <==> level !in ["Error", "Emergency", "Warning", "Info", "Debug"]
  {
    Ansi.CodesDistinct();
    if level == "Error" || level == "Emergency" then Ansi.Red
    else if level == "Warning" then Ansi.Yellow
    else if level == "Info" then Ansi.Green
    else if level == "Debug" then Ansi.Magenta
    else ""
  }

  /** The comparison copy of a field value: a value ending in a newline loses its
      last two bytes; `substr(0, size() - 2)` of a one-byte value keeps it whole. */
  function Stripped(s: string): string
    requires |s| > 0
  {
    if s[|s| - 1] == '\n' then (if |s| >= 2 then s[..|s| - 2] else s) else s
  }

  /** The LogLevel column: the colour code goes out through ostream::put, so the
      width of 9 applies to the value alone; the reset code and a blank follow. */
  function LevelText(value: string): string
    requires |value| > 0
  {
    LevelColour(Stripped(value)) + PadRight(value, 9) + Ansi.Reset + " "
  }

  /** What printing one field produces. */
  datatype FieldOut = Emitted(text: string) | FieldUndefined

  /** `json["hits"]["hits"][i]["_source"][name]`. */
  function SourceValue(hit: Json, name: string): Access<Json>
  {
    match Key(hit, "_source")
    case Throws => Throws
    case Ok(source) => Key(source, name)
  }

  /** The `tags` branch: the first element and a blank, for the field named
      "tags"; nothing for other fields. */
  function TagPart(name: string, value: Json): Access<string>
  {
    if name != "tags" then Ok("")
    else match At(value, 0)
      case Throws => Throws
      case Ok(first) =>
        match AsString(first)
        case None => Throws
        case Some(t) => Ok(t + " ")
  }

  /** The highlighted branch: `highlight_field[0]` and a blank, or nothing when
      that access throws. */
  function HighlightPart(highlight: Json): string
  {
    match At(highlight, 0)
    case Throws => ""
    case Ok(fragment) =>
      match AsString(fragment)
      case None => ""
      case Some(t) => t + " "
  }

  /** One pass of the loop over `vlogfields`: the body of its try block. An
      exception abandons the field, keeping what it already wrote. */
  function FieldText(hit: Json, highlights: Json, f: LogField): FieldOut
  {
    match Key(highlights, f.name)
    case Throws => Emitted("")
    case Ok(highlight) =>
      if !f.enabled then Emitted("")
      else match SourceValue(hit, f.name)
        case Throws => Emitted("")
        case Ok(value) =>
          match AsString(value)
          case None => Emitted("")
          case Some(s) =>
            if s == "" then FieldUndefined
            else match TagPart(f.name, value)
              case Throws => Emitted("")
              case Ok(tag) =>
                if f.name == "LogLevel" then Emitted(tag + LevelText(s))
                else if Size(highlight) == 1 then Emitted(tag + HighlightPart(highlight))
                else Emitted(tag + s + " ")
  }

  /** The outcome of each field of one hit, in the given order. */
  function FieldOuts(hit: Json, highlights: Json, fs: seq<LogField>): (r: seq<FieldOut>)
    ensures |r| == |fs|
    ensures forall k :: 0 <= k < |fs| ==> r[k] == FieldText(hit, highlights, fs[k])
  {
    seq(|fs|, k requires 0 <= k < |fs| => FieldText(hit, highlights, fs[k]))
  }

  /** Field outcomes written one after another; None once one of them reaches
      undefined behaviour. */
  function Combine(outs: seq<FieldOut>): Option<string>
  {
    if outs == [] then Some("")
    else match outs[0]
      case FieldUndefined => None
      case Emitted(t) => PrefixText(t, Combine(outs[1..]))
  }

  /** The fields of one hit in the given order. */
  function FieldsText(hit: Json, highlights: Json, fs: seq<LogField>): Option<string>
  {
    Combine(FieldOuts(hit, highlights, fs))
  }

  /** One hit's line: `highlight` is copied outside the try block, so an
      exception there ends the process. */
  function HitLine(hit: Json, shown: seq<LogField>): Outcome
  {
    match Key(hit, "highlight")
    case Throws => Terminated("")
    case Ok(highlights) =>
      match FieldsText(hit, highlights, shown)
      case None => Undefined
      case Some(t) => Output(t + "\n")
  }

  /** The lines of hits n-1, n-2, ..., 0: the response is walked last to first. */
  function HitsFrom(hits: Json, n: nat, shown: seq<LogField>): Outcome
    decreases n
  {
    if n == 0 then Output("")
    else match At(hits, n - 1)
      case Throws => Terminated("")
      case Ok(hit) => AndThen(HitLine(hit, shown), HitsFrom(hits, n - 1, shown))
  }

  /** The whole reply: the error report when `hits.hits` is empty, the hit
      lines otherwise. `shown` is the registry in display order. */
  function RenderReply(reply: Json, shown: seq<LogField>): Outcome
  {
    match Key(reply, "hits")
    case Throws => Terminated("")
    case Ok(h) =>
      match Key(h, "hits")
      case Throws => Terminated("")
      case Ok(hits) => if Size(hits) == 0 then ErrorReport(reply) else HitsFrom(hits, Size(hits), shown)
  }

  // ---------------------------------------------------------------- the handler

  /** The error loop of the zero-hit branch. */
  method PrintErrors(reply: Json) returns (o: Outcome)
    ensures o == ErrorReport(reply)
  {
    var e := Key(reply, "error");
    if e.Throws? {
      return Terminated("");
    }
    var errors := Key(e.value, "root_cause");
    if errors.Throws? {
      return Terminated("");
    }
    var causes := errors.value;
    var n := Size(causes);
    var out := "";
    var i := 0;
    while i < n
      invariant 0 <= i <= n
      invariant ErrorsFrom(causes, 0, n) == After(out, ErrorsFrom(causes, i, n))
      decreases n - i
    {
      var cause := At(causes, i);
      if cause.Throws? {
        return Terminated(out);
      }
      var line := CauseText(cause.value);
      if line.None? {
        return Terminated(out);
      }
      assert ErrorsFrom(causes, i, n) == After(line.value, ErrorsFrom(causes, i + 1, n));
      AfterAfter(out, line.value, ErrorsFrom(causes, i + 1, n));
      out := out + line.value;
      i := i + 1;
    }
    o := Output(out);
  }

  /** The loop over `vlogfields` for one hit, ending the line with endl. */
  method PrintHit(hit: Json, shown: seq<LogField>) returns (o: Outcome)
    ensures o == HitLine(hit, shown)
  {
    var highlights := Key(hit, "highlight");
    if highlights.Throws? {
      return Terminated("");
    }
    var hl := highlights.value;
    ghost var outs := FieldOuts(hit, hl, shown);
    var line := "";
    assert outs[0..] == outs;
    PrefixTextEmpty(Combine(outs));
    var f := 0;
    while f < |shown|
      invariant 0 <= f <= |shown|
      invariant FieldsText(hit, hl, shown) == PrefixText(line, Combine(outs[f..]))
    {
      assert outs[f..][1..] == outs[f + 1..];
      var piece := FieldText(hit, hl, shown[f]);
      if piece.FieldUndefined? {
        return Undefined;
      }
      PrefixTextAppend(line, piece.text, Combine(outs[f + 1..]));
      line := line + piece.text;
      f := f + 1;
    }
    o := Output(line + "\n");
  }

  /** One turn of the hit loop: a hit that prints normally adds its line to
      what was written and leaves the hits before it. */
  lemma NextHit(hits: Json, i: nat, hit: Json, shown: seq<LogField>, out: string)
    requires At(hits, i) == Ok(hit) && HitLine(hit, shown).Output?
    ensures After(out, HitsFrom(hits, i + 1, shown)) ==
      After(out + HitLine(hit, shown).text, HitsFrom(hits, i, shown))
  {
    AfterAfter(out, HitLine(hit, shown).text, HitsFrom(hits, i, shown));
  }

  /** The MG_EV_HTTP_REPLY branch: the hits from last to first, or the error
      report when there are none. */
  method HandleReply(reply: Json, shown: seq<LogField>) returns (o: Outcome)
    ensures o == RenderReply(reply, shown)
  {
    var h := Key(reply, "hits");
    if h.Throws? {
      return Terminated("");
    }
    var hh := Key(h.value, "hits");
    if hh.Throws? {
      return Terminated("");
    }
    var hits := hh.value;
    if Size(hits) == 0 {
      o := PrintErrors(reply);
      return;
    }
    o := PrintHits(hits, shown);
  }

  /** The loop over the hits, from the last one to the first. */
  method PrintHits(hits: Json, shown: seq<LogField>) returns (o: Outcome)
    ensures o == HitsFrom(hits, Size(hits), shown)
  {
    var count := Size(hits);
    var out := "";
    var i: int := count as int - 1;
    while i >= 0
      invariant -1 <= i < count
      invariant HitsFrom(hits, count, shown) == After(out, HitsFrom(hits, i + 1, shown))
    {
      var hit := At(hits, i);
      if hit.Throws? {
        return Terminated(out);
      }
      var line := PrintHit(hit.value, shown);
      if !line.Output? {
        return After(out, line);
      }
      NextHit(hits, i, hit.value, shown, out);
      out := out + line.text;
      i := i - 1;
    }
    o := Output(out);
  }
}
