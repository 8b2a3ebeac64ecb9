/** `extract_transcript_text`: turning a conversation payload into a plain-text
    transcript. `TranscriptOf` is the specification, `ExtractTranscriptText` the
    loop-based operation proved equal to it, and the lemmas state what the
    result is in terms of the payload. */
module Transcript {
  import opened PyValues

  /** The top-level fields tried, in this order. */
  const TranscriptKeys: seq<string> := ["transcript", "full_transcript", "conversation_transcript"]

  const MessagesKey: string := "messages"

  // ---------------------------------------------------------------------------
  // Joining and splitting lines

  /** `"\n".join(xs)` on strings. */
  function JoinLines(xs: seq<string>): string
    decreases |xs|
  {
    if xs == [] then ""
    else if |xs| == 1 then xs[0]
    else xs[0] + "\n" + JoinLines(xs[1..])
  }

  /** `s.split("\n")`, the inverse of `JoinLines` on lines without a newline. */
  function SplitLines(s: string): (r: seq<string>)
    ensures |r| >= 1
    decreases |s|
  {
    if s == [] then [""]
    else
      var rest := SplitLines(s[1..]);
      if s[0] == '\n' then [""] + rest
      else [[s[0]] + rest[0]] + rest[1..]
  }

  lemma {:induction false} SplitWithoutNewline(a: string)
    requires '\n' !in a
    ensures SplitLines(a) == [a]
  {
    if a != [] {
      assert '\n' !in a[1..];
      SplitWithoutNewline(a[1..]);
      assert [a[0]] + a[1..] == a;
    }
  }

  lemma {:induction false} SplitAtFirstNewline(a: string, b: string)
    requires '\n' !in a
    ensures SplitLines(a + "\n" + b) == [a] + SplitLines(b)
  {
    var s := a + "\n" + b;
    if a == [] {
      assert s[1..] == b;
    } else {
      assert s[1..] == a[1..] + "\n" + b;
      assert '\n' !in a[1..];
      SplitAtFirstNewline(a[1..], b);
      assert [a[0]] + a[1..] == a;
    }
  }

  /** Splitting the join of a non-empty list of lines gives back the lines,
      provided no line itself holds a newline. */
  lemma {:induction false} SplitJoinLines(xs: seq<string>)
    requires xs != []
    requires forall i :: 0 <= i < |xs| ==> '\n' !in xs[i]
    ensures SplitLines(JoinLines(xs)) == xs
  {
    if |xs| == 1 {
      SplitWithoutNewline(xs[0]);
    } else {
      SplitAtFirstNewline(xs[0], JoinLines(xs[1..]));
      SplitJoinLines(xs[1..]);
      assert [xs[0]] + xs[1..] == xs;
    }
  }

  /** Joining two non-empty runs of lines puts one newline between them. */
  lemma {:induction false} JoinLinesConcat(a: seq<string>, b: seq<string>)
    requires a != [] && b != []
    ensures JoinLines(a + b) == JoinLines(a) + "\n" + JoinLines(b)
  {
    if |a| == 1 {
      assert (a + b)[1..] == b;
    } else {
      assert (a + b)[1..] == a[1..] + b;
      JoinLinesConcat(a[1..], b);
    }
  }

  // ---------------------------------------------------------------------------
  // Top-level transcript fields

  /** The first of `keys` whose value in `fields` is a string with some
      non-whitespace content; the value is returned as stored, not stripped. */
  function FirstTranscriptField(fields: map<string, Json>, keys: seq<string>): (r: Option<string>)
    ensures r.Some? ==> !IsBlank(r.value) && exists i :: 0 <= i < |keys| && Get(fields, keys[i]) == JStr(r.value)
    decreases |keys|
  {
    if keys == [] then None
    else if IsNonBlankString(Get(fields, keys[0])) then Some(Get(fields, keys[0]).s)
    else FirstTranscriptField(fields, keys[1..])
  }

  /** `keys[i]` is the first key holding a non-blank string. */
  ghost predicate FirstNonBlankAt(fields: map<string, Json>, keys: seq<string>, i: int) {
    && 0 <= i < |keys|
    && IsNonBlankString(Get(fields, keys[i]))
    && forall j :: 0 <= j < i ==> !IsNonBlankString(Get(fields, keys[j]))
  }

  lemma {:induction false} FirstTranscriptFieldIsFirstNonBlank(fields: map<string, Json>, keys: seq<string>, i: int)
    requires FirstNonBlankAt(fields, keys, i)
    ensures FirstTranscriptField(fields, keys) == Some(Get(fields, keys[i]).s)
  {
    if i > 0 {
      assert FirstNonBlankAt(fields, keys[1..], i - 1) by {
        forall j | 0 <= j < i - 1 ensures !IsNonBlankString(Get(fields, keys[1..][j])) {
          assert keys[1..][j] == keys[j + 1];
        }
      }
      FirstTranscriptFieldIsFirstNonBlank(fields, keys[1..], i - 1);
    }
  }

  lemma {:induction false} FirstTranscriptFieldSound(fields: map<string, Json>, keys: seq<string>)
    ensures FirstTranscriptField(fields, keys).Some? ==>
              exists i :: FirstNonBlankAt(fields, keys, i) &&
                          FirstTranscriptField(fields, keys).value == Get(fields, keys[i]).s
    ensures FirstTranscriptField(fields, keys).None? <==>
              forall j :: 0 <= j < |keys| ==> !IsNonBlankString(Get(fields, keys[j]))
    decreases |keys|
  {
    if keys != [] {
      FirstTranscriptFieldSound(fields, keys[1..]);
      if IsNonBlankString(Get(fields, keys[0])) {
        assert FirstNonBlankAt(fields, keys, 0);
      } else {
        if FirstTranscriptField(fields, keys).Some? {
          var i :| FirstNonBlankAt(fields, keys[1..], i) &&
                   FirstTranscriptField(fields, keys[1..]).value == Get(fields, keys[1..][i]).s;
          assert FirstNonBlankAt(fields, keys, i + 1) by {
            forall j | 0 <= j < i + 1 ensures !IsNonBlankString(Get(fields, keys[j])) {
              if j > 0 { assert keys[j] == keys[1..][j - 1]; }
            }
          }
        }
        forall j | 0 <= j < |keys[1..]| ensures keys[1..][j] == keys[j + 1] { }
      }
    }
  }

  // ---------------------------------------------------------------------------
  // The `messages` fallback

  /** `msg.get("text") or msg.get("content") or ""`. */
  function MessageText(msg: map<string, Json>): (r: Json)
    ensures Truthy(r) <==> Truthy(Get(msg, "text")) || Truthy(Get(msg, "content"))
    ensures Truthy(Get(msg, "text")) ==> r == Get(msg, "text")
    ensures !Truthy(Get(msg, "text")) && Truthy(Get(msg, "content")) ==> r == Get(msg, "content")
    ensures !Truthy(r) ==> r == JStr("")
  {
    var text := Get(msg, "text");
    var content := Get(msg, "content");
    if Truthy(text) then text else if Truthy(content) then content else JStr("")
  }

  /** The `parts` list the loop builds: the truthy message texts in message
      order; `.get` on a message that is not a dict raises AttributeError. */
  function Parts(messages: seq<Json>): (r: Result<seq<Json>, PyError>)
    ensures r.Success? <==> forall i :: 0 <= i < |messages| ==> messages[i].JObj?
    ensures r.Failure? ==> r.error == AttributeError
    ensures r.Success? ==> |r.value| <= |messages| && forall k :: 0 <= k < |r.value| ==> Truthy(r.value[k])
    decreases |messages|
  {
    if messages == [] then Success([])
    else
      var init := messages[..|messages| - 1];
      var last := messages[|messages| - 1];
      assert forall i :: 0 <= i < |init| ==> init[i] == messages[i];
      match Parts(init)
      case Failure(e) => Failure(e)
      case Success(ps) =>
        if !last.JObj? then Failure(AttributeError)
        else
          var t := MessageText(last.fields);
          Success(if Truthy(t) then ps + [t] else ps)
  }

  /** The strings of `parts`, or None when one of them is not a string. */
  function Texts(parts: seq<Json>): (r: Option<seq<string>>)
    ensures r.Some? <==> forall i :: 0 <= i < |parts| ==> parts[i].JStr?
    ensures r.Some? ==> |r.value| == |parts| && forall i :: 0 <= i < |parts| ==> r.value[i] == parts[i].s
    decreases |parts|
  {
    if parts == [] then Some([])
    else if !parts[0].JStr? then None
    else match Texts(parts[1..])
      case None => None
      case Some(rest) => Some([parts[0].s] + rest)
  }

  /** `"\n".join(parts)`, which raises TypeError on an item that is not a string. */
  function JoinParts(parts: seq<Json>): (r: Result<string, PyError>)
    ensures r.Failure? <==> exists i :: 0 <= i < |parts| && !parts[i].JStr?
    ensures r.Failure? ==> r.error == TypeError
    ensures r.Success? ==> r.value == JoinLines(Texts(parts).value)
  {
    match Texts(parts)
    case None => Failure(TypeError)
    case Some(xs) => Success(JoinLines(xs))
  }

  // ---------------------------------------------------------------------------
  // The specification

  /** What `extract_transcript_text(payload)` returns or raises. */
  function TranscriptOf(payload: Json): (r: Result<string, PyError>)
    ensures !Truthy(payload) ==> r == Success("")
    ensures r.Failure? ==> Truthy(payload) && (r.error == AttributeError || r.error == TypeError)
    ensures payload.JObj? && FirstTranscriptField(payload.fields, TranscriptKeys).Some? ==>
              r == Success(FirstTranscriptField(payload.fields, TranscriptKeys).value)
    ensures r.Failure? && payload.JObj? ==> Truthy(Get(payload.fields, MessagesKey))
  {
    if !Truthy(payload) then Success("")
    else if !payload.JObj? then Failure(AttributeError)
    else
      match FirstTranscriptField(payload.fields, TranscriptKeys)
      case Some(s) => Success(s)
      case None =>
        var messages := Get(payload.fields, MessagesKey);
        if messages.JList? && messages.items != [] then
          match Parts(messages.items)
          case Failure(e) => Failure(e)
          case Success(ps) => if ps != [] then JoinParts(ps) else Success("")
        else Success("")
  }

  // ---------------------------------------------------------------------------
  // The operation

  method ExtractTranscriptText(payload: Json) returns (r: Result<string, PyError>)
    ensures r == TranscriptOf(payload)
  {
    if !Truthy(payload) {
      return Success("");
    }
    if !payload.JObj? {
      return Failure(AttributeError);
    }
    var fields := payload.fields;
    var i := 0;
    while i < |TranscriptKeys|
      invariant 0 <= i <= |TranscriptKeys|
      invariant FirstTranscriptField(fields, TranscriptKeys) == FirstTranscriptField(fields, TranscriptKeys[i..])
    {
      var val := Get(fields, TranscriptKeys[i]);
      assert TranscriptKeys[i..][1..] == TranscriptKeys[i + 1..];
      if val.JStr? && !IsBlank(val.s) {
        return Success(val.s);
      }
      i := i + 1;
    }
    var messages := Get(fields, MessagesKey);
    if messages.JList? && messages.items != [] {
      var items := messages.items;
      var parts: seq<Json> := [];
      var k := 0;
      while k < |items|
        invariant 0 <= k <= |items|
        invariant Parts(items[..k]) == Success(parts)
      {
        var msg := items[k];
        assert items[..k + 1][..k] == items[..k];
        if !msg.JObj? {
          return Failure(AttributeError);
        }
        var text := MessageText(msg.fields);
        if Truthy(text) {
          parts := parts + [text];
        }
        k := k + 1;
      }
      assert items[..k] == items;
      if parts != [] {
        return JoinParts(parts);
      }
    }
    return Success("");
  }

  // ---------------------------------------------------------------------------
  // A reference reading of the fallback on well-formed messages

  /** Messages that are dicts whose `text` and `content` are strings or absent. */
  ghost predicate WellFormedMessages(messages: seq<Json>) {
    forall i :: 0 <= i < |messages| ==>
      && messages[i].JObj?
      && (Get(messages[i].fields, "text").JNull? || Get(messages[i].fields, "text").JStr?)
      && (Get(messages[i].fields, "content").JNull? || Get(messages[i].fields, "content").JStr?)
  }

  /** The line a message contributes: its `text` when that is a non-empty
      string, else its `content` when that is, else nothing. */
  function Line(msg: map<string, Json>): string {
    var text := Get(msg, "text");
    var content := Get(msg, "content");
    if text.JStr? && text.s != "" then text.s
    else if content.JStr? && content.s != "" then content.s
    else ""
  }

  /** The non-empty lines of the messages, in message order. */
  function Lines(messages: seq<Json>): seq<string>
    decreases |messages|
  {
    if messages == [] then []
    else
      var rest := Lines(messages[1..]);
      if messages[0].JObj? && Line(messages[0].fields) != "" then [Line(messages[0].fields)] + rest else rest
  }

  /** The lines of a concatenation are the lines of each part, in order. */
  lemma {:induction false} LinesConcat(a: seq<Json>, b: seq<Json>)
    ensures Lines(a + b) == Lines(a) + Lines(b)
    decreases |a|
  {
    if a == [] {
      assert a + b == b;
    } else {
      assert (a + b)[0] == a[0];
      assert (a + b)[1..] == a[1..] + b;
      LinesConcat(a[1..], b);
    }
  }

  /** A line is in the result exactly when some message contributes it. */
  lemma {:induction false} LinesMembership(messages: seq<Json>, s: string)
    ensures s in Lines(messages) <==>
              s != "" && exists i :: 0 <= i < |messages| && messages[i].JObj? && Line(messages[i].fields) == s
    decreases |messages|
  {
    if messages != [] {
      LinesMembership(messages[1..], s);
      if s != "" && (exists i :: 0 <= i < |messages| && messages[i].JObj? && Line(messages[i].fields) == s) {
        var i :| 0 <= i < |messages| && messages[i].JObj? && Line(messages[i].fields) == s;
        if i > 0 { assert messages[1..][i - 1] == messages[i]; }
      }
      if exists i :: 0 <= i < |messages[1..]| && messages[1..][i].JObj? && Line(messages[1..][i].fields) == s {
        var i :| 0 <= i < |messages[1..]| && messages[1..][i].JObj? && Line(messages[1..][i].fields) == s;
        assert messages[i + 1] == messages[1..][i];
      }
    }
  }

  lemma {:induction false} TextsAppend(ps: seq<Json>, s: string)
    requires Texts(ps).Some?
    ensures Texts(ps + [JStr(s)]) == Some(Texts(ps).value + [s])
    decreases |ps|
  {
    if ps == [] {
      assert ps + [JStr(s)] == [JStr(s)];
      var one := [JStr(s)];
      assert one[0].s == s && one[1..] == [];
      assert Texts(one[1..]) == Some([]);
      assert [s] + [] == [s];
      assert Texts(one) == Some([s]);
      assert Texts(ps).value + [s] == [s];
    } else {
      assert (ps + [JStr(s)])[0] == ps[0];
      assert (ps + [JStr(s)])[1..] == ps[1..] + [JStr(s)];
      TextsAppend(ps[1..], s);
      assert [ps[0].s] + (Texts(ps[1..]).value + [s]) == ([ps[0].s] + Texts(ps[1..]).value) + [s];
    }
  }

  /** On well-formed messages the `parts` list is made of strings, and they
      are exactly the reference lines. */
  lemma {:induction false} PartsAreLines(messages: seq<Json>)
    requires WellFormedMessages(messages)
    ensures Parts(messages).Success? && Texts(Parts(messages).value) == Some(Lines(messages))
    decreases |messages|
  {
    if messages != [] {
      var init := messages[..|messages| - 1];
      var last := messages[|messages| - 1];
      assert WellFormedMessages(init) by {
        forall i | 0 <= i < |init| ensures init[i] == messages[i] { }
      }
      PartsAreLines(init);
      assert init + [last] == messages;
      LinesConcat(init, [last]);
      assert [last][1..] == [];
      var t := MessageText(last.fields);
      if Truthy(t) {
        assert t == JStr(Line(last.fields)) && Line(last.fields) != "";
        assert Lines([last]) == [Line(last.fields)];
        TextsAppend(Parts(init).value, Line(last.fields));
      } else {
        assert Line(last.fields) == "";
        assert Lines([last]) == [];
        assert Lines(init) + [] == Lines(init);
        assert Parts(messages) == Parts(init);
      }
    }
  }

  // ---------------------------------------------------------------------------
  // Properties of the specification

  /** A falsy payload (`None`, `{}`, `""`, `[]`, `0`, `False`) yields `""`, and
      a truthy payload that is not a dict raises AttributeError. */
  lemma PayloadShape(payload: Json)
    ensures !Truthy(payload) ==> TranscriptOf(payload) == Success("")
    ensures Truthy(payload) && !payload.JObj? ==> TranscriptOf(payload) == Failure(AttributeError)
  {
  }

  /** When one of the three top-level fields holds a non-blank string, the
      first such one in key order is the result, unchanged, and `messages`
      is never looked at: replacing it by any `v` changes nothing. */
  lemma TopLevelTranscriptWins(fields: map<string, Json>, i: int, v: Json)
    requires FirstNonBlankAt(fields, TranscriptKeys, i)
    ensures TranscriptOf(JObj(fields)) == Success(Get(fields, TranscriptKeys[i]).s)
    ensures TranscriptOf(JObj(fields[MessagesKey := v])) == TranscriptOf(JObj(fields))
  {
  }

  /** When no top-level key holds a non-blank string and `messages` is a list
      of dicts whose `text` and `content` are strings or absent, the transcript
      is their lines joined with newlines: message order is kept, `text` wins
      over `content`, and messages with neither are skipped. */
  lemma MessagesFallback(fields: map<string, Json>, messages: seq<Json>)
    requires forall j :: 0 <= j < |TranscriptKeys| ==> !IsNonBlankString(Get(fields, TranscriptKeys[j]))
    requires Get(fields, MessagesKey) == JList(messages)
    requires WellFormedMessages(messages)
    ensures TranscriptOf(JObj(fields)) == Success(JoinLines(Lines(messages)))
  {
    assert MessagesKey in fields;
    FirstTranscriptFieldSound(fields, TranscriptKeys);
    if messages != [] {
      PartsAreLines(messages);
    }
  }

  /** When no top-level key holds a non-blank string, the transcript is `""`,
      and no error is raised, when `messages` is absent, not a list, or a
      (possibly empty) list of dicts none of which carries a truthy text. */
  lemma NoMessageTextYieldsEmpty(fields: map<string, Json>)
    requires forall j :: 0 <= j < |TranscriptKeys| ==> !IsNonBlankString(Get(fields, TranscriptKeys[j]))
    requires var m := Get(fields, MessagesKey);
             !m.JList? ||
             forall i :: 0 <= i < |m.items| ==> m.items[i].JObj? && !Truthy(MessageText(m.items[i].fields))
    ensures TranscriptOf(JObj(fields)) == Success("")
  {
    FirstTranscriptFieldSound(fields, TranscriptKeys);
    var m := Get(fields, MessagesKey);
    if m.JList? && m.items != [] && Truthy(JObj(fields)) {
      NoTextMeansNoParts(m.items);
    }
  }

  lemma {:induction false} NoTextMeansNoParts(messages: seq<Json>)
    requires forall i :: 0 <= i < |messages| ==> messages[i].JObj? && !Truthy(MessageText(messages[i].fields))
    ensures Parts(messages) == Success([])
    decreases |messages|
  {
    if messages != [] {
      var init := messages[..|messages| - 1];
      assert forall i :: 0 <= i < |init| ==> init[i] == messages[i];
      NoTextMeansNoParts(init);
    }
  }

  /** A message that is not a dict raises AttributeError, whatever the other
      messages hold. */
  lemma NonDictMessageRaises(fields: map<string, Json>, messages: seq<Json>, k: int)
    requires forall j :: 0 <= j < |TranscriptKeys| ==> !IsNonBlankString(Get(fields, TranscriptKeys[j]))
    requires Get(fields, MessagesKey) == JList(messages)
    requires 0 <= k < |messages| && !messages[k].JObj?
    ensures TranscriptOf(JObj(fields)) == Failure(AttributeError)
  {
  }

  /** A truthy message text that is not a string, at any position among dict
      messages, reaches `"\n".join` and raises TypeError. */
  lemma NonStringTextRaises(fields: map<string, Json>, messages: seq<Json>, k: int)
    requires forall j :: 0 <= j < |TranscriptKeys| ==> !IsNonBlankString(Get(fields, TranscriptKeys[j]))
    requires Get(fields, MessagesKey) == JList(messages)
    requires forall i :: 0 <= i < |messages| ==> messages[i].JObj?
    requires 0 <= k < |messages| && messages[k].JObj?
    requires Truthy(MessageText(messages[k].fields)) && !MessageText(messages[k].fields).JStr?
    ensures TranscriptOf(JObj(fields)) == Failure(TypeError)
  {
    assert MessagesKey in fields;
    FirstTranscriptFieldSound(fields, TranscriptKeys);
    PartsKeepText(messages, k);
  }

  /** Every truthy message text is one of the parts. */
  lemma {:induction false} PartsKeepText(messages: seq<Json>, k: int)
    requires forall i :: 0 <= i < |messages| ==> messages[i].JObj?
    requires 0 <= k < |messages| && messages[k].JObj? && Truthy(MessageText(messages[k].fields))
    ensures MessageText(messages[k].fields) in Parts(messages).value
    decreases |messages|
  {
    var init := messages[..|messages| - 1];
    if k < |messages| - 1 {
      assert init[k] == messages[k];
      assert forall i :: 0 <= i < |init| ==> init[i] == messages[i];
      PartsKeepText(init, k);
    }
  }

  /** The whitespace asymmetry: a blank top-level transcript is skipped, but a
      blank (non-empty) message text is kept, because only emptiness is tested. */
  lemma BlankTopLevelSkippedBlankTextKept(s: string)
    requires s != "" && IsBlank(s)
    ensures TranscriptOf(JObj(map["transcript" := JStr(s), MessagesKey := JList([JObj(map["text" := JStr(s)])])]))
            == Success(s)
  {
  }

  /** When no top-level key holds a non-blank string and each of two
      well-formed message lists contributes at least one line, the transcript
      of the two one after the other is their two transcripts with a newline
      between them. */
  lemma FallbackOfConcatenation(fields: map<string, Json>, a: seq<Json>, b: seq<Json>)
    requires forall j :: 0 <= j < |TranscriptKeys| ==> !IsNonBlankString(Get(fields, TranscriptKeys[j]))
    requires WellFormedMessages(a) && WellFormedMessages(b)
    requires Lines(a) != [] && Lines(b) != []
    ensures TranscriptOf(JObj(fields[MessagesKey := JList(a + b)])) ==
            Success(JoinLines(Lines(a)) + "\n" + JoinLines(Lines(b)))
  {
    var fields' := fields[MessagesKey := JList(a + b)];
    forall j | 0 <= j < |TranscriptKeys| ensures Get(fields', TranscriptKeys[j]) == Get(fields, TranscriptKeys[j]) {
      assert TranscriptKeys[j] != MessagesKey;
    }
    assert WellFormedMessages(a + b) by {
      forall i | 0 <= i < |a + b| ensures (a + b)[i] == if i < |a| then a[i] else b[i - |a|] { }
    }
    MessagesFallback(fields', a + b);
    LinesConcat(a, b);
    JoinLinesConcat(Lines(a), Lines(b));
  }
}
