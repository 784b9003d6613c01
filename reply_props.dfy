/** What the reply renderer promises: the order of hits and fields, which
    fields print and how, the error report, and when undefined behaviour is
    reached. */
module ReplyProperties {
  import opened Basics
  import opened Strings
  import opened JsonTree
  import opened Registry
  import opened Render
  import Ansi

  // ---------------------------------------------------------------- one field

  /** A disabled field prints nothing, whatever the hit holds. */
  lemma DisabledFieldPrintsNothing(hit: Json, highlights: Json, f: LogField)
    requires !f.enabled
    ensures FieldText(hit, highlights, f) == Emitted("")
  {
  }

  /** A field whose value jsoncpp cannot turn into a string (an array or an
      object) is skipped: asString throws inside the try block. */
  lemma UnconvertibleValueSkipped(hit: Json, highlights: Json, f: LogField)
    requires SourceValue(hit, f.name).Ok?
    requires SourceValue(hit, f.name).value.JArr? || SourceValue(hit, f.name).value.JObj?
    ensures FieldText(hit, highlights, f) == Emitted("")
  {
  }

  /** Undefined behaviour is reached exactly when an enabled field, whose
      highlight lookup did not throw, has a value that reads as the empty
      string. */
  lemma FieldUndefinedExactly(hit: Json, highlights: Json, f: LogField)
    ensures FieldText(hit, highlights, f) == FieldUndefined <==>
      f.enabled && Key(highlights, f.name).Ok? && SourceValue(hit, f.name).Ok?
      && AsString(SourceValue(hit, f.name).value) == Some("")
  {
  }

  /** In particular an enabled field that the record does not have at all reads
      as null, hence as "", and reaches undefined behaviour. */
  lemma MissingFieldIsUndefined(hit: Json, highlights: Json, f: LogField, source: map<string, Json>)
    requires f.enabled && highlights.JObj?
    requires hit.JObj? && "_source" in hit.members && hit.members["_source"] == JObj(source)
    requires f.name !in source
    ensures FieldText(hit, highlights, f) == FieldUndefined
  {
    FieldUndefinedExactly(hit, highlights, f);
  }

  /** The "tags" field never shows a tag: a value that reads as a non-empty
      string is a scalar, and subscripting a scalar with [0] throws. */
  lemma TagsNeverPrinted(hit: Json, highlights: Json, enabled: bool)
    ensures FieldText(hit, highlights, LogField("tags", enabled)) in {Emitted(""), FieldUndefined}
  {
    match SourceValue(hit, "tags")
    case Throws =>
    case Ok(v) =>
      if AsString(v).Some? && AsString(v).value != "" {
        assert !v.JNull? && !v.JArr? && !v.JObj?;
        assert At(v, 0).Throws?;
      }
  }

  /** An ordinary field (neither LogLevel nor tags) prints the first highlight
      fragment when exactly one was returned for it, and its own value
      otherwise; either is followed by a blank. */
  lemma HighlightChoice(hit: Json, highlights: Json, f: LogField, highlight: Json, value: Json)
    requires f.enabled && f.name != "LogLevel" && f.name != "tags"
    requires Key(highlights, f.name) == Ok(highlight)
    requires SourceValue(hit, f.name) == Ok(value)
    requires AsString(value).Some? && AsString(value).value != ""
    ensures Size(highlight) == 1 ==> FieldText(hit, highlights, f) == Emitted(HighlightPart(highlight))
    ensures Size(highlight) != 1 ==> FieldText(hit, highlights, f) == Emitted(AsString(value).value + " ")
    ensures forall fragment :: highlight == JArr([JStr(fragment)]) ==>
      FieldText(hit, highlights, f) == Emitted(fragment + " ")
  {
  }

  /** The LogLevel column: colour, the value left-aligned in 9 columns, the
      reset code, a blank. The highlight is not used for it. */
  lemma LogLevelColumn(hit: Json, highlights: Json, value: string)
    requires Key(highlights, "LogLevel").Ok?
    requires SourceValue(hit, "LogLevel") == Ok(JStr(value))
    requires value != ""
    ensures FieldText(hit, highlights, LogField("LogLevel", true)) ==
      Emitted(LevelColour(Stripped(value)) + PadRight(value, 9) + Ansi.Reset + " ")
    ensures |PadRight(value, 9)| == if |value| >= 9 then |value| else 9
  {
  }

  /** A value ending in CR LF is compared without both bytes. */
  lemma StrippedCrLf(t: string)
    ensures Stripped(t + "\r\n") == t
  {
    assert (t + "\r\n")[..|t|] == t;
  }

  /** Colours of the usual levels: a bare value and a CR LF terminated one
      match; a value ending in a lone LF loses one byte too many and goes
      uncoloured. */
  lemma LevelColours()
    ensures LevelText("Error") == Ansi.Red + "Error    " + Ansi.Reset + " "
    ensures LevelColour(Stripped("Warning\r\n")) == Ansi.Yellow
    ensures LevelColour(Stripped("Info")) == Ansi.Green
    ensures LevelColour(Stripped("Info\n")) == ""
    ensures LevelColour(Stripped("Notice")) == ""
  {
    StrippedCrLf("Warning");
    assert Stripped("Info\n") == "Inf";
    SpacesAreBlanks(4);
    assert Spaces(4) == "    ";
    assert PadRight("Error", 9) == "Error    ";
  }

  // ---------------------------------------------------------------- one hit

  /** The registry entries that print at all, in the same order. */
  function EnabledOnly(fs: seq<LogField>): (r: seq<LogField>)
    ensures forall f :: f in r <==> f in fs && f.enabled
  {
    if fs == [] then [] else (if fs[0].enabled then [fs[0]] else []) + EnabledOnly(fs[1..])
  }

  /** The field outcomes of `fs` are those of its head, then of its tail. */
  lemma FieldOutsCons(hit: Json, highlights: Json, fs: seq<LogField>)
    requires fs != []
    ensures FieldOuts(hit, highlights, fs) ==
      [FieldText(hit, highlights, fs[0])] + FieldOuts(hit, highlights, fs[1..])
  {
  }

  lemma CombineCons(o: FieldOut, outs: seq<FieldOut>)
    ensures Combine([o] + outs) == if o.FieldUndefined? then None else PrefixText(o.text, Combine(outs))
  {
    assert ([o] + outs)[1..] == outs;
  }

  /** Dropping the disabled fields changes nothing in a hit's line. */
  lemma {:induction false} OnlyEnabledFieldsMatter(hit: Json, highlights: Json, fs: seq<LogField>)
    ensures FieldsText(hit, highlights, fs) == FieldsText(hit, highlights, EnabledOnly(fs))
  {
    if fs != [] {
      OnlyEnabledFieldsMatter(hit, highlights, fs[1..]);
      FieldOutsCons(hit, highlights, fs);
      CombineCons(FieldText(hit, highlights, fs[0]), FieldOuts(hit, highlights, fs[1..]));
      if fs[0].enabled {
        var e := EnabledOnly(fs);
        assert e == [fs[0]] + EnabledOnly(fs[1..]);
        assert e[1..] == EnabledOnly(fs[1..]);
        FieldOutsCons(hit, highlights, e);
      } else {
        DisabledFieldPrintsNothing(hit, highlights, fs[0]);
        PrefixTextEmpty(Combine(FieldOuts(hit, highlights, fs[1..])));
        assert EnabledOnly(fs) == EnabledOnly(fs[1..]);
      }
    }
  }

  /** The text a field contributes, "" where it has none. */
  function TextOf(o: FieldOut): string
  {
    if o.Emitted? then o.text else ""
  }

  /** A sequence of strings with `x` in front. */
  lemma ConcatCons(x: string, ss: seq<string>)
    ensures Concat([x] + ss) == x + Concat(ss)
  {
    ConcatAppend([x], ss);
  }

  /** Field outputs are written one after another, in order. */
  lemma {:induction false} CombineInOrder(outs: seq<FieldOut>)
    requires forall k :: 0 <= k < |outs| ==> outs[k].Emitted?
    ensures Combine(outs) == Some(Concat(seq(|outs|, k requires 0 <= k < |outs| => TextOf(outs[k]))))
  {
    var texts := seq(|outs|, k requires 0 <= k < |outs| => TextOf(outs[k]));
    if outs != [] {
      CombineInOrder(outs[1..]);
      var rest := seq(|outs| - 1, k requires 0 <= k < |outs| - 1 => TextOf(outs[1..][k]));
      assert texts == [texts[0]] + rest;
      ConcatCons(texts[0], rest);
    }
  }

  /** Combining reaches undefined behaviour exactly when one field does. */
  lemma {:induction false} CombineUndefinedExactly(outs: seq<FieldOut>)
    ensures Combine(outs).None? <==> exists k :: 0 <= k < |outs| && outs[k] == FieldUndefined
  {
    if outs != [] {
      CombineUndefinedExactly(outs[1..]);
      if outs[0] != FieldUndefined {
        if exists k :: 0 <= k < |outs| && outs[k] == FieldUndefined {
          var k :| 0 <= k < |outs| && outs[k] == FieldUndefined;
          assert outs[1..][k - 1] == outs[k];
        }
      }
    }
  }

  /** A hit with a highlight object prints its fields in display order and
      ends the line, unless a field reaches undefined behaviour; it reaches
      undefined behaviour exactly when one of its fields does. */
  lemma HitLineSpec(hit: Json, shown: seq<LogField>)
    requires Key(hit, "highlight").Ok?
    ensures (HitLine(hit, shown) == Undefined) <==>
      exists k :: 0 <= k < |shown| && FieldText(hit, Key(hit, "highlight").value, shown[k]) == FieldUndefined
    ensures HitLine(hit, shown) != Undefined ==> (HitLine(hit, shown) ==
      Output(Concat(seq(|shown|, k requires 0 <= k < |shown| => TextOf(FieldText(hit, Key(hit, "highlight").value, shown[k])))) + "\n"))
  {
    var hl := Key(hit, "highlight").value;
    var outs := FieldOuts(hit, hl, shown);
    CombineUndefinedExactly(outs);
    if HitLine(hit, shown) != Undefined {
      CombineInOrder(outs);
      assert seq(|outs|, k requires 0 <= k < |outs| => TextOf(outs[k]))
        == seq(|shown|, k requires 0 <= k < |shown| => TextOf(FieldText(hit, hl, shown[k])));
    }
  }

  // ---------------------------------------------------------------- the reply

  /** What a hit prints when it prints normally. */
  function LineOf(o: Outcome): string
  {
    if o.Output? then o.text else ""
  }

  /** Outcomes one after another: the first that does not return normally
      ends the sequence. */
  function Sequenced(os: seq<Outcome>): Outcome
  {
    if os == [] then Output("") else AndThen(os[0], Sequenced(os[1..]))
  }

  /** When every outcome returns normally, their texts are written in order. */
  lemma {:induction false} SequencedInOrder(os: seq<Outcome>)
    requires forall k :: 0 <= k < |os| ==> os[k].Output?
    ensures Sequenced(os) == Output(Concat(seq(|os|, k requires 0 <= k < |os| => LineOf(os[k]))))
  {
    if os != [] {
      SequencedInOrder(os[1..]);
      var lines := seq(|os|, k requires 0 <= k < |os| => LineOf(os[k]));
      var rest := seq(|os| - 1, k requires 0 <= k < |os| - 1 => LineOf(os[1..][k]));
      assert lines == [lines[0]] + rest;
      ConcatCons(lines[0], rest);
    }
  }

  /** The hits of an array, last first. */
  function NewestFirst(hs: seq<Json>, n: nat, shown: seq<LogField>): (r: seq<Outcome>)
    requires n <= |hs|
    ensures |r| == n
    ensures forall k :: 0 <= k < n ==> r[k] == HitLine(hs[n - 1 - k], shown)
  {
    seq(n, k requires 0 <= k < n => HitLine(hs[n - 1 - k], shown))
  }

  /** The hit loop walks hits.hits from its last element to its first. */
  lemma {:induction false} HitsWalkBackwards(hs: seq<Json>, n: nat, shown: seq<LogField>)
    requires n <= |hs|
    ensures HitsFrom(JArr(hs), n, shown) == Sequenced(NewestFirst(hs, n, shown))
  {
    if n > 0 {
      HitsWalkBackwards(hs, n - 1, shown);
      var os := NewestFirst(hs, n, shown);
      assert os[1..] == NewestFirst(hs, n - 1, shown);
    }
  }

  /** A reply with hits prints one line per hit, the last hit of the response
      first, as long as none of them fails. */
  lemma HitsInReverseOrder(reply: Json, hs: seq<Json>, shown: seq<LogField>)
    requires Get(reply, [Member("hits"), Member("hits")]) == Some(JArr(hs))
    requires |hs| > 0
    requires forall k :: 0 <= k < |hs| ==> HitLine(hs[k], shown).Output?
    ensures RenderReply(reply, shown) == Sequenced(NewestFirst(hs, |hs|, shown))
    ensures RenderReply(reply, shown) ==
      Output(Concat(seq(|hs|, k requires 0 <= k < |hs| => LineOf(HitLine(hs[|hs| - 1 - k], shown)))))
  {
    HitsBranch(reply, hs, shown);
    HitsWalkBackwards(hs, |hs|, shown);
    NewestFirstLines(hs, shown);
  }

  /** A non-empty `hits.hits` array takes the hit branch. */
  lemma HitsBranch(reply: Json, hs: seq<Json>, shown: seq<LogField>)
    requires Get(reply, [Member("hits"), Member("hits")]) == Some(JArr(hs))
    requires |hs| > 0
    ensures RenderReply(reply, shown) == HitsFrom(JArr(hs), |hs|, shown)
  {
    var p: seq<Step> := [Member("hits"), Member("hits")];
    assert p[1..] == [Member("hits")];
  }

  /** The lines of hits that all print normally, last hit first. */
  lemma NewestFirstLines(hs: seq<Json>, shown: seq<LogField>)
    requires forall k :: 0 <= k < |hs| ==> HitLine(hs[k], shown).Output?
    ensures Sequenced(NewestFirst(hs, |hs|, shown)) ==
      Output(Concat(seq(|hs|, k requires 0 <= k < |hs| => LineOf(HitLine(hs[|hs| - 1 - k], shown)))))
  {
    var os := NewestFirst(hs, |hs|, shown);
    SequencedInOrder(os);
    assert seq(|os|, k requires 0 <= k < |os| => LineOf(os[k]))
      == seq(|hs|, k requires 0 <= k < |hs| => LineOf(HitLine(hs[|hs| - 1 - k], shown)));
  }

  /** The lines of hits n-1, n-2, ..., i+1: what the hit loop has written
      before it reaches hit i. */
  function LinesAfter(hs: seq<Json>, i: nat, n: nat, shown: seq<LogField>): (r: seq<string>)
    requires i < n <= |hs|
    ensures |r| == n - 1 - i
  {
    seq(n - 1 - i, k requires 0 <= k < n - 1 - i => LineOf(HitLine(hs[n - 1 - k], shown)))
  }

  lemma LinesAfterCons(hs: seq<Json>, i: nat, n: nat, shown: seq<LogField>)
    requires i < n - 1 && n <= |hs|
    ensures LinesAfter(hs, i, n, shown) == [LineOf(HitLine(hs[n - 1], shown))] + LinesAfter(hs, i, n - 1, shown)
  {
    var lines := LinesAfter(hs, i, n, shown);
    var rest := LinesAfter(hs, i, n - 1, shown);
    assert forall k :: 0 <= k < |rest| ==> lines[k + 1] == rest[k];
  }

  /** A hit that is neither null nor an object ends the process: its
      `highlight` member is read outside the try block. The lines of the hits
      that come after it in the response are already written. */
  lemma BadHighlightTerminates(hs: seq<Json>, i: nat, shown: seq<LogField>)
    requires i < |hs|
    requires !hs[i].JNull? && !hs[i].JObj?
    requires forall k :: i < k < |hs| ==> HitLine(hs[k], shown).Output?
    ensures HitsFrom(JArr(hs), |hs|, shown) == Terminated(Concat(LinesAfter(hs, i, |hs|, shown)))
  {
    EarlierFailureCarries(hs, i, |hs|, shown);
  }

  /** A hit that is an object never ends the process, whatever its
      `highlight` holds: a highlight that is not an object throws inside the
      try block, so every field is abandoned and the line is empty. */
  lemma ObjectHitReturns(hit: Json, shown: seq<LogField>)
    requires hit.JObj?
    ensures !HitLine(hit, shown).Terminated?
    ensures ("highlight" in hit.members && !hit.members["highlight"].JNull?
             && !hit.members["highlight"].JObj?) ==> HitLine(hit, shown) == Output("\n")
  {
    var hl := Key(hit, "highlight").value;
    if !hl.JNull? && !hl.JObj? {
      AbandonedFields(hit, hl, shown);
    }
  }

  /** Every field is abandoned when the highlight lookup throws. */
  lemma {:induction false} AbandonedFields(hit: Json, highlights: Json, fs: seq<LogField>)
    requires !highlights.JNull? && !highlights.JObj?
    ensures FieldsText(hit, highlights, fs) == Some("")
  {
    if fs != [] {
      AbandonedFields(hit, highlights, fs[1..]);
      FieldOutsCons(hit, highlights, fs);
      CombineCons(FieldText(hit, highlights, fs[0]), FieldOuts(hit, highlights, fs[1..]));
      PrefixTextEmpty(Combine(FieldOuts(hit, highlights, fs[1..])));
    }
  }

  /** Once hit i ends the process, so does the hit loop, after the lines of
      the hits it walked before reaching hit i. */
  lemma {:induction false} EarlierFailureCarries(hs: seq<Json>, i: nat, n: nat, shown: seq<LogField>)
    requires i < n <= |hs|
    requires HitLine(hs[i], shown) == Terminated("")
    requires forall k :: i < k < n ==> HitLine(hs[k], shown).Output?
    ensures HitsFrom(JArr(hs), n, shown) == Terminated(Concat(LinesAfter(hs, i, n, shown)))
    decreases n
  {
    if n - 1 > i {
      EarlierFailureCarries(hs, i, n - 1, shown);
      var lines := LinesAfter(hs, i, n, shown);
      var rest := LinesAfter(hs, i, n - 1, shown);
      var line := HitLine(hs[n - 1], shown);
      assert At(JArr(hs), n - 1) == Ok(hs[n - 1]);
      assert HitsFrom(JArr(hs), n, shown) == AndThen(line, HitsFrom(JArr(hs), n - 1, shown));
      LinesAfterCons(hs, i, n, shown);
      ConcatCons(line.text, rest);
      assert HitsFrom(JArr(hs), n, shown) == Terminated(line.text + Concat(rest));
    } else {
      assert LinesAfter(hs, i, n, shown) == [];
      assert At(JArr(hs), i) == Ok(hs[i]);
      assert HitsFrom(JArr(hs), n, shown) == Terminated("");
    }
  }

  /** A root cause prints a line exactly when it can be subscripted and both
      its `reason` and its `type` convert with asString: a missing member
      reads as null, hence "", and booleans and integers print as text. */
  lemma CauseTextExactly(c: Json)
    ensures CauseText(c).Some? <==>
      Key(c, "reason").Ok? && Key(c, "type").Ok?
      && AsString(Key(c, "reason").value).Some? && AsString(Key(c, "type").value).Some?
    ensures CauseText(c).Some? ==>
      CauseText(c).value == ErrorLine(AsString(Key(c, "type").value).value, AsString(Key(c, "reason").value).value)
  {
  }

  /** A cause without a `type` prints an empty type; a numeric type prints
      its digits. */
  lemma CauseLineExamples(reason: string)
    ensures CauseText(JObj(map["reason" := JStr(reason)])) == Some(ErrorLine("", reason))
    ensures CauseText(JObj(map["reason" := JStr(reason), "type" := JNum(404)])) == Some(ErrorLine("404", reason))
    ensures CauseText(JObj(map["reason" := JArr([]), "type" := JStr("t")])) == None
  {
    assert Strings.NatToString(4) == "4" && Strings.NatToString(40) == "40";
    assert Strings.IntToString(404) == "404";
  }

  /** The lines of root causes that all print, in order. */
  function CauseLinesOf(causes: seq<Json>): (r: seq<string>)
    requires forall k :: 0 <= k < |causes| ==> CauseText(causes[k]).Some?
    ensures |r| == |causes|
  {
    seq(|causes|, k requires 0 <= k < |causes| => CauseText(causes[k]).value)
  }

  lemma CauseLinesOfCons(causes: seq<Json>, i: nat, j: nat)
    requires i < j <= |causes|
    requires forall k :: 0 <= k < |causes| ==> CauseText(causes[k]).Some?
    ensures CauseLinesOf(causes[i..j]) == [CauseText(causes[i]).value] + CauseLinesOf(causes[i + 1..j])
  {
  }

  /** Root causes i.. that all print give their lines in order. */
  lemma {:induction false} CauseLines(causes: seq<Json>, i: nat)
    requires i <= |causes|
    requires forall k :: 0 <= k < |causes| ==> CauseText(causes[k]).Some?
    ensures ErrorsFrom(JArr(causes), i, |causes|) == Output(Concat(CauseLinesOf(causes[i..])))
    decreases |causes| - i
  {
    if i < |causes| {
      CauseLines(causes, i + 1);
      assert causes[i..] == causes[i..|causes|] && causes[i + 1..] == causes[i + 1..|causes|];
      CauseLinesOfCons(causes, i, |causes|);
      ConcatCons(CauseText(causes[i]).value, CauseLinesOf(causes[i + 1..]));
    }
  }

  /** The first root cause j that does not print (its reason or type is an
      array or an object, or it cannot be subscripted) ends the process: the
      loop is outside the try. The lines of the causes before it are kept. */
  lemma {:induction false} BadCauseCuts(causes: seq<Json>, i: nat, j: nat)
    requires i <= j < |causes|
    requires forall k :: 0 <= k < j ==> CauseText(causes[k]).Some?
    requires CauseText(causes[j]).None?
    ensures ErrorsFrom(JArr(causes), i, |causes|) == Terminated(Concat(CauseLinesOf(causes[i..j])))
    decreases j - i
  {
    if i < j {
      BadCauseCuts(causes, i + 1, j);
      assert At(JArr(causes), i) == Ok(causes[i]);
      assert ErrorsFrom(JArr(causes), i, |causes|) ==
        After(CauseText(causes[i]).value, ErrorsFrom(JArr(causes), i + 1, |causes|));
      assert forall k :: 0 <= k < |causes[..j]| ==> CauseText(causes[..j][k]).Some?;
      assert causes[i..j] == causes[..j][i..j] && causes[i + 1..j] == causes[..j][i + 1..j];
      CauseLinesOfCons(causes[..j], i, j);
      ConcatCons(CauseText(causes[i]).value, CauseLinesOf(causes[i + 1..j]));
    } else {
      assert causes[i..j] == [];
    }
  }

  /** The zero-hit branch of a reply. */
  predicate NoHits(reply: Json)
  {
    Key(reply, "hits").Ok? && Key(Key(reply, "hits").value, "hits").Ok?
    && Size(Key(Key(reply, "hits").value, "hits").value) == 0
  }

  /** A reply without hits prints one red error line per root cause, in
      order, and nothing from the field registry. */
  lemma ErrorReplyLines(reply: Json, causes: seq<Json>, shown: seq<LogField>)
    requires NoHits(reply)
    requires Get(reply, [Member("error"), Member("root_cause")]) == Some(JArr(causes))
    requires forall k :: 0 <= k < |causes| ==> CauseText(causes[k]).Some?
    ensures RenderReply(reply, shown) == Output(Concat(CauseLinesOf(causes)))
  {
    CauseLines(causes, 0);
    assert causes[0..] == causes;
  }

  /** A reply without hits whose root cause j does not print ends the process
      after the lines of the causes before it. */
  lemma ErrorReplyCut(reply: Json, causes: seq<Json>, j: nat, shown: seq<LogField>)
    requires NoHits(reply)
    requires Get(reply, [Member("error"), Member("root_cause")]) == Some(JArr(causes))
    requires j < |causes|
    requires forall k :: 0 <= k < j ==> CauseText(causes[k]).Some?
    requires CauseText(causes[j]).None?
    ensures RenderReply(reply, shown) == Terminated(Concat(CauseLinesOf(causes[..j])))
  {
    BadCauseCuts(causes, 0, j);
    assert causes[0..j] == causes[..j];
  }

  /** A reply without hits whose `error.root_cause` reads as something of
      size 0 prints nothing. A search that found nothing has no `error`
      member at all: it reads as null, and so does its `root_cause`. */
  lemma EmptySearchPrintsNothing(reply: Json, shown: seq<LogField>)
    requires NoHits(reply)
    requires Key(reply, "error").Ok? && Key(Key(reply, "error").value, "root_cause").Ok?
    requires Size(Key(Key(reply, "error").value, "root_cause").value) == 0
    ensures RenderReply(reply, shown) == Output("")
    ensures RenderReply(JObj(map["hits" := JObj(map["hits" := JArr([])])]), shown) == Output("")
  {
    var empty := JObj(map["hits" := JObj(map["hits" := JArr([])])]);
    assert "error" !in empty.members;
    assert Key(empty, "error") == Ok(JNull);
  }

  /** The usual error reply: "hits" missing altogether takes the error branch. */
  lemma ErrorOnlyReply(reason: string, errorType: string, shown: seq<LogField>)
    ensures RenderReply(JObj(map["error" := JObj(map["root_cause" := JArr([
        JObj(map["type" := JStr(errorType), "reason" := JStr(reason)])])])]), shown)
      == Output(Ansi.Red + "error: " + Ansi.Reset + errorType + ", " + reason + "\n")
  {
    var cause := JObj(map["type" := JStr(errorType), "reason" := JStr(reason)]);
    var reply := JObj(map["error" := JObj(map["root_cause" := JArr([cause])])]);
    assert "hits" !in reply.members;
    assert CauseText(cause) == Some(ErrorLine(errorType, reason));
    ErrorReplyLines(reply, [cause], shown);
    assert CauseLinesOf([cause]) == [ErrorLine(errorType, reason)];
  }
}
