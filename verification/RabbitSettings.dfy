/** getNeutronRabbitConfig: three settings read from the lines of a Neutron configuration. */
module RabbitSettings {
  import opened Text

  // ---------- the line scanner ----------

  /** bufio.Scanner gives up at the first line that does not fit its 64 KiB buffer; the newline
      has to fit as well. */
  const MAX_LINE := 65535

  function NewlineAt(s: string): (k: nat)
    ensures k <= |s|
  {
    if |s| == 0 || s[0] == '\n' then 0 else NewlineAt(s[1..]) + 1
  }

  function DropCR(line: string): (text: string)
    ensures line == text || line == text + "\r"
    ensures |line| > 0 && line[|line| - 1] == '\r' ==> line == text + "\r"
  {
    if |line| > 0 && line[|line| - 1] == '\r' then line[..|line| - 1] else line
  }

  /** The lines the scanner delivers. */
  function Lines(s: string): seq<string>
    decreases |s|
  {
    if |s| == 0 then []
    else
      var k := NewlineAt(s);
      if k > MAX_LINE then []
      else [DropCR(s[..k])] + (if k == |s| then [] else Lines(s[k + 1..]))
  }

  /** Every line of s fits the scanner's buffer. */
  predicate LinesFit(s: string)
    decreases |s|
  {
    var k := NewlineAt(s);
    k <= MAX_LINE && (k < |s| ==> LinesFit(s[k + 1..]))
  }

  predicate IsSpace(c: char) {
    c in "\t\n\r " || c == 0xB as char || c == 0xC as char || c == 0x85 as char || c == 0xA0 as char
    || c == 0x1680 as char || 0x2000 as char <= c <= 0x200A as char || c == 0x2028 as char
    || c == 0x2029 as char || c == 0x202F as char || c == 0x205F as char || c == 0x3000 as char
  }

  /** strings.TrimSpace */
  function TrimSpace(s: string): string
    decreases |s|
  {
    if |s| > 0 && IsSpace(s[0]) then TrimSpace(s[1..])
    else if |s| > 0 && IsSpace(s[|s| - 1]) then TrimSpace(s[..|s| - 1])
    else s
  }

  /** The text is space throughout. */
  predicate Blank(s: string) {
    forall i :: 0 <= i < |s| ==> IsSpace(s[i])
  }

  lemma AroundJoin(s: string, before: string, text: string, after: string)
    requires |s| > 0
    ensures s[1..] == before + text + after ==> s == [s[0]] + before + text + after
    ensures s[..|s| - 1] == before + text + after ==> s == before + text + (after + [s[|s| - 1]])
  {
    assert s == [s[0]] + s[1..] && s == s[..|s| - 1] + [s[|s| - 1]];
  }

  /** Trimming removes the space at both ends and nothing else. */
  lemma {:induction false} TrimExact(s: string) returns (before: string, after: string)
    ensures s == before + TrimSpace(s) + after && Blank(before) && Blank(after)
    ensures TrimSpace(s) != "" ==>
              !IsSpace(TrimSpace(s)[0]) && !IsSpace(TrimSpace(s)[|TrimSpace(s)| - 1])
    decreases |s|
  {
    before, after := "", "";
    if |s| > 0 && IsSpace(s[0]) {
      before, after := TrimExact(s[1..]);
      AroundJoin(s, before, TrimSpace(s), after);
      before := [s[0]] + before;
    } else if |s| > 0 && IsSpace(s[|s| - 1]) {
      before, after := TrimExact(s[..|s| - 1]);
      AroundJoin(s, before, TrimSpace(s), after);
      after := after + [s[|s| - 1]];
    }
  }

  // ---------- meaning ----------

  datatype Key = QuorumQueue | TransientQuorumQueue | DurableQueues

  function KeyText(key: Key): string {
    match key
    case QuorumQueue => "rabbit_quorum_queue="
    case TransientQuorumQueue => "rabbit_transient_quorum_queue="
    case DurableQueues => "amqp_durable_queues="
  }

  predicate Sets(line: string, key: Key) {
    HasPrefix(TrimSpace(line), KeyText(key))
  }

  function ValueOf(line: string, key: Key): string
    requires Sets(line, key)
  {
    TrimSpace(line)[|KeyText(key)|..]
  }

  /** The value after the last line that sets the key, "false" if there is none. */
  function LastValue(lines: seq<string>, key: Key): string {
    if |lines| == 0 then "false"
    else
      var last := lines[|lines| - 1];
      if Sets(last, key) then ValueOf(last, key) else LastValue(lines[..|lines| - 1], key)
  }

  datatype Settings = Settings(quorumQueue: string, transientQuorumQueue: string, durableQueues: string)

  function SettingsOf(lines: seq<string>): Settings {
    Settings(LastValue(lines, QuorumQueue), LastValue(lines, TransientQuorumQueue), LastValue(lines, DurableQueues))
  }

  /** Line i is the last one that sets the key. */
  ghost predicate IsLastSet(lines: seq<string>, key: Key, i: int) {
    && 0 <= i < |lines|
    && Sets(lines[i], key)
    && forall j :: i < j < |lines| ==> !Sets(lines[j], key)
  }

  predicate AnySets(lines: seq<string>, key: Key) {
    |lines| != 0 && (Sets(lines[|lines| - 1], key) || AnySets(lines[..|lines| - 1], key))
  }

  /** A line sets a key if it is, trimmed, one of these followed by the value. */
  lemma SetsMeaning(line: string, value: string)
    ensures (Sets(line, QuorumQueue) && ValueOf(line, QuorumQueue) == value)
            <==> TrimSpace(line) == "rabbit_quorum_queue=" + value
    ensures (Sets(line, TransientQuorumQueue) && ValueOf(line, TransientQuorumQueue) == value)
            <==> TrimSpace(line) == "rabbit_transient_quorum_queue=" + value
    ensures (Sets(line, DurableQueues) && ValueOf(line, DurableQueues) == value)
            <==> TrimSpace(line) == "amqp_durable_queues=" + value
  {
    PrefixAndRest(TrimSpace(line), KeyText(QuorumQueue), value);
    PrefixAndRest(TrimSpace(line), KeyText(TransientQuorumQueue), value);
    PrefixAndRest(TrimSpace(line), KeyText(DurableQueues), value);
  }

  lemma PrefixAndRest(text: string, prefix: string, rest: string)
    ensures (HasPrefix(text, prefix) && text[|prefix|..] == rest) <==> text == prefix + rest
  {
    assert HasPrefix(text, prefix) ==> text == prefix + text[|prefix|..];
  }

  /** What LastValue means: the value of the last line that sets the key, wherever it is, and
      "false" when no line sets it. */
  lemma {:induction false} LastValueSpec(lines: seq<string>, key: Key, i: int)
    ensures IsLastSet(lines, key, i) ==> LastValue(lines, key) == ValueOf(lines[i], key)
    ensures !AnySets(lines, key) ==> LastValue(lines, key) == "false"
    ensures 0 <= i < |lines| && Sets(lines[i], key) ==> AnySets(lines, key)
  {
    if |lines| != 0 {
      var front := lines[..|lines| - 1];
      assert forall j :: 0 <= j < |front| ==> front[j] == lines[j];
      LastValueSpec(front, key, i);
    }
  }

  // ---------- the keys do not interfere ----------

  /** No key's text is a prefix of another's, so a line sets at most one key. */
  lemma OneKeyPerLine(line: string, a: Key, b: Key)
    requires Sets(line, a) && Sets(line, b)
    ensures a == b
  {
    var t := TrimSpace(line);
    assert t[0] == KeyText(a)[0] == KeyText(b)[0];
    assert t[7] == KeyText(a)[7] == KeyText(b)[7];
  }

  /** The if/else-if chain, with its tests in a given order. */
  function FirstMatch(order: seq<Key>, line: string): Option<Key> {
    if |order| == 0 then None
    else if Sets(line, order[0]) then Some(order[0])
    else FirstMatch(order[1..], line)
  }

  lemma {:induction false} FirstMatchFinds(order: seq<Key>, line: string, key: Key)
    requires key in order
    ensures FirstMatch(order, line) == Some(key) <==> Sets(line, key)
  {
    if Sets(line, order[0]) {
      if Sets(line, key) {
        OneKeyPerLine(line, key, order[0]);
      }
    } else if order[0] != key {
      FirstMatchFinds(order[1..], line, key);
    } else if FirstMatch(order[1..], line) == Some(key) {
      FirstMatchSets(order[1..], line);
    }
  }

  lemma {:induction false} FirstMatchSets(order: seq<Key>, line: string)
    ensures FirstMatch(order, line).Some? ==>
              FirstMatch(order, line).value in order && Sets(line, FirstMatch(order, line).value)
  {
    if |order| != 0 && !Sets(line, order[0]) {
      FirstMatchSets(order[1..], line);
    }
  }

  /** So the order of the branches does not matter. */
  lemma BranchOrderIrrelevant(order: seq<Key>, other: seq<Key>, line: string)
    requires Elements(order) == Elements(other)
    ensures FirstMatch(order, line) == FirstMatch(other, line)
  {
    assert forall k :: k in order <==> k in Elements(order);
    assert forall k :: k in other <==> k in Elements(other);
    FirstMatchSets(order, line);
    FirstMatchSets(other, line);
    if FirstMatch(order, line).Some? {
      FirstMatchFinds(other, line, FirstMatch(order, line).value);
    } else if FirstMatch(other, line).Some? {
      FirstMatchFinds(order, line, FirstMatch(other, line).value);
    }
  }

  // ---------- the loop ----------

  /** The effect of one trimmed line. */
  function Apply(settings: Settings, line: string): Settings {
    if HasPrefix(line, KeyText(QuorumQueue)) then settings.(quorumQueue := line[|KeyText(QuorumQueue)|..])
    else if HasPrefix(line, KeyText(TransientQuorumQueue)) then
      settings.(transientQuorumQueue := line[|KeyText(TransientQuorumQueue)|..])
    else if HasPrefix(line, KeyText(DurableQueues)) then settings.(durableQueues := line[|KeyText(DurableQueues)|..])
    else settings
  }

  lemma ApplyStep(lines: seq<string>, i: nat)
    requires i < |lines|
    ensures SettingsOf(lines[..i + 1]) == Apply(SettingsOf(lines[..i]), TrimSpace(lines[i]))
  {
    SettingsStep(lines, i);
    if !Sets(lines[i], QuorumQueue) && !Sets(lines[i], TransientQuorumQueue) && !Sets(lines[i], DurableQueues) {
      forall key ensures !Sets(lines[i], key) {
        match key
        case QuorumQueue =>
        case TransientQuorumQueue =>
        case DurableQueues =>
      }
    }
  }

  /** conf is the content of 10-neutron-dhcp.conf, None when the secret or the key is missing. */
  method GetNeutronRabbitConfig(conf: Option<string>) returns (settings: Settings)
    ensures var lines := if conf.None? then [] else Lines(conf.value);
            && settings.quorumQueue == LastValue(lines, QuorumQueue)
            && settings.transientQuorumQueue == LastValue(lines, TransientQuorumQueue)
            && settings.durableQueues == LastValue(lines, DurableQueues)
  {
    var quorum, transientQuorum, durable := "false", "false", "false";
    if conf.None? {
      return Settings(quorum, transientQuorum, durable);
    }
    var lines := Lines(conf.value);
    var i := 0;
    while i < |lines|
      invariant 0 <= i <= |lines|
      invariant Settings(quorum, transientQuorum, durable) == SettingsOf(lines[..i])
    {
      var line := TrimSpace(lines[i]);
      ApplyStep(lines, i);
      if HasPrefix(line, KeyText(QuorumQueue)) {
        quorum := line[|KeyText(QuorumQueue)|..];
      } else if HasPrefix(line, KeyText(TransientQuorumQueue)) {
        transientQuorum := line[|KeyText(TransientQuorumQueue)|..];
      } else if HasPrefix(line, KeyText(DurableQueues)) {
        durable := line[|KeyText(DurableQueues)|..];
      }
      i := i + 1;
    }
    assert lines[..|lines|] == lines;
    settings := Settings(quorum, transientQuorum, durable);
  }

  /** One more line changes the setting it has the key of, and no other. */
  lemma SettingsStep(lines: seq<string>, i: nat)
    requires i < |lines|
    ensures var before, after := SettingsOf(lines[..i]), SettingsOf(lines[..i + 1]);
            && (Sets(lines[i], QuorumQueue) ==> after == before.(quorumQueue := ValueOf(lines[i], QuorumQueue)))
            && (Sets(lines[i], TransientQuorumQueue) ==>
                  after == before.(transientQuorumQueue := ValueOf(lines[i], TransientQuorumQueue)))
            && (Sets(lines[i], DurableQueues) ==> after == before.(durableQueues := ValueOf(lines[i], DurableQueues)))
            && ((forall key :: !Sets(lines[i], key)) ==> after == before)
  {
    assert lines[..i + 1] == lines[..i] + [lines[i]];
    forall key {
      LastValueSnoc(lines[..i], lines[i], key);
    }
    forall a, b | Sets(lines[i], a) && Sets(lines[i], b) ensures a == b {
      OneKeyPerLine(lines[i], a, b);
    }
  }

  // ---------- lines that set nothing ----------

  lemma {:induction false} LastValueAppend(front: seq<string>, back: seq<string>, key: Key)
    ensures LastValue(front + back, key) == if AnySets(back, key) then LastValue(back, key) else LastValue(front, key)
    ensures AnySets(front + back, key) <==> AnySets(front, key) || AnySets(back, key)
  {
    if |back| == 0 {
      assert front + back == front;
    } else {
      var init, last := back[..|back| - 1], back[|back| - 1];
      assert back == init + [last];
      assert front + back == front + init + [last];
      LastValueSnoc(front + init, last, key);
      LastValueSnoc(init, last, key);
      LastValueAppend(front, init, key);
    }
  }

  lemma LastValueSnoc(front: seq<string>, last: string, key: Key)
    ensures LastValue(front + [last], key) == if Sets(last, key) then ValueOf(last, key) else LastValue(front, key)
    ensures AnySets(front + [last], key) <==> Sets(last, key) || AnySets(front, key)
  {
    assert (front + [last])[..|front|] == front;
  }

  lemma NoiseLine(front: seq<string>, noise: string, back: seq<string>)
    requires forall key :: !Sets(noise, key)
    ensures SettingsOf(front + ([noise] + back)) == SettingsOf(front + back)
  {
    forall key ensures LastValue(front + ([noise] + back), key) == LastValue(front + back, key) {
      LastValueAppend(front, [noise] + back, key);
      LastValueAppend([noise], back, key);
      LastValueAppend(front, back, key);
      assert !AnySets([noise], key);
    }
  }

  lemma {:induction false} NewlineAtFirst(line: string, rest: string)
    requires '\n' !in line
    ensures NewlineAt(line + "\n" + rest) == |line|
  {
    var s := line + "\n" + rest;
    if |line| == 0 {
      assert s[0] == '\n';
    } else {
      assert s[0] == line[0];
      assert s[1..] == line[1..] + "\n" + rest;
      NewlineAtFirst(line[1..], rest);
    }
  }

  lemma {:induction false} NewlineInside(s: string)
    requires |s| > 0 && s[|s| - 1] == '\n'
    ensures NewlineAt(s) < |s|
  {
    if s[0] != '\n' {
      NewlineInside(s[1..]);
    }
  }

  /** The first line of a text and what follows it. */
  lemma {:induction false} LinesStep(line: string, rest: string)
    requires '\n' !in line
    ensures Lines(line + "\n" + rest) == if |line| > MAX_LINE then [] else [DropCR(line)] + Lines(rest)
    ensures LinesFit(line + "\n" + rest) <==> |line| <= MAX_LINE && LinesFit(rest)
  {
    var s := line + "\n" + rest;
    NewlineAtFirst(line, rest);
    assert s[..|line|] == line;
    assert s[|line| + 1..] == rest;
  }

  /** Text without a newline is one line, unless it is empty. */
  lemma {:induction false} LastLine(line: string)
    requires '\n' !in line
    ensures Lines(line) == if line == "" || |line| > MAX_LINE then [] else [DropCR(line)]
  {
    NoNewline(line);
    assert line[..|line|] == line;
  }

  lemma {:induction false} NoNewline(line: string)
    requires '\n' !in line
    ensures NewlineAt(line) == |line|
  {
    if |line| != 0 {
      NoNewline(line[1..]);
    }
  }

  lemma {:induction false} NewlineAtAppend(a: string, b: string)
    requires NewlineAt(a) < |a|
    ensures NewlineAt(a + b) == NewlineAt(a)
  {
    assert (a + b)[0] == a[0];
    if a[0] != '\n' {
      assert (a + b)[1..] == a[1..] + b;
      NewlineAtAppend(a[1..], b);
    }
  }

  /** Lines and LinesFit, unfolded at the first newline. */
  lemma {:induction false} LinesUnfold(s: string, k: nat)
    requires k == NewlineAt(s) < |s|
    ensures Lines(s) == if k > MAX_LINE then [] else [DropCR(s[..k])] + Lines(s[k + 1..])
  {
  }

  lemma {:induction false} LinesFitUnfold(s: string, k: nat)
    requires k == NewlineAt(s) < |s|
    ensures LinesFit(s) <==> k <= MAX_LINE && LinesFit(s[k + 1..])
  {
  }

  /** Text that ends with a newline contributes its lines, and then the rest contributes its
      own, unless the scanner gave up before. */
  lemma {:induction false} LinesConcat(a: string, b: string)
    requires |a| > 0 ==> a[|a| - 1] == '\n'
    ensures Lines(a + b) == if LinesFit(a) then Lines(a) + Lines(b) else Lines(a)
    decreases |a|
  {
    if |a| == 0 {
      assert a + b == b;
    } else {
      NewlineInside(a);
      NewlineAtAppend(a, b);
      var k := NewlineAt(a);
      LinesUnfold(a, k);
      LinesFitUnfold(a, k);
      LinesUnfold(a + b, k);
      TakeDropAppend(a, b, k);
      LinesConcat(a[k + 1..], b);
      LinesConcatStep(DropCR(a[..k]), Lines(a[k + 1..]), Lines(b));
    }
  }

  lemma TakeDropAppend(a: string, b: string, k: nat)
    requires k < |a|
    ensures (a + b)[..k] == a[..k] && (a + b)[k + 1..] == a[k + 1..] + b
  {
  }

  lemma LinesConcatStep(line: string, rest: seq<string>, more: seq<string>)
    ensures [line] + (rest + more) == [line] + rest + more
  {
  }

  /** A whole line that sets none of the keys can be inserted at any line boundary of the file
      without effect, if the line fits the scanner's buffer. */
  lemma NoiseInvisible(a: string, noise: string, b: string)
    requires |a| > 0 ==> a[|a| - 1] == '\n'
    requires '\n' !in noise && |noise| <= MAX_LINE
    requires forall key :: !Sets(DropCR(noise), key)
    ensures SettingsOf(Lines(a + (noise + "\n" + b))) == SettingsOf(Lines(a + b))
  {
    LinesConcat(a, noise + "\n" + b);
    LinesConcat(a, b);
    LinesStep(noise, b);
    NoiseLine(Lines(a), DropCR(noise), Lines(b));
  }
}
