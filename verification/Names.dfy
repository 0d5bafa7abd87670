/** Names: the per-pod log claims of an instance, which claims the operator selects, and the
    ordinal of a pod. */
module Names {
  import opened Text

  /** The decimal numeral of n, as in a StatefulSet pod ordinal. */
  function Decimal(n: nat): (s: string)
    ensures |s| > 0
  {
    var digit := [('0' as int + n % 10) as char];
    if n < 10 then digit else Decimal(n / 10) + digit
  }

  predicate IsDigit(c: char) {
    '0' <= c <= '9'
  }

  lemma {:induction false} DecimalDigits(n: nat)
    ensures forall i :: 0 <= i < |Decimal(n)| ==> IsDigit(Decimal(n)[i])
    ensures '-' !in Decimal(n)
    ensures n > 0 ==> Decimal(n)[0] != '0'
  {
    if n >= 10 {
      DecimalDigits(n / 10);
    }
  }

  /** The number that a numeral denotes, digit by digit from the left. */
  function ValueOf(numeral: string): int {
    if |numeral| == 0 then 0
    else 10 * ValueOf(numeral[..|numeral| - 1]) + (numeral[|numeral| - 1] as int - '0' as int)
  }

  /** The numeral of n denotes n. */
  lemma {:induction false} DecimalDenotes(n: nat)
    ensures ValueOf(Decimal(n)) == n
  {
    var digit := [('0' as int + n % 10) as char];
    if n < 10 {
      assert digit[..0] == "";
    } else {
      DecimalDenotes(n / 10);
      assert (Decimal(n / 10) + digit)[..|Decimal(n / 10)|] == Decimal(n / 10);
    }
  }

  /** Different ordinals have different numerals. */
  lemma {:induction false} DecimalInjective(m: nat, n: nat)
    requires Decimal(m) == Decimal(n)
    ensures m == n
  {
    var a, b := Decimal(m), Decimal(n);
    assert a[|a| - 1] == ('0' as int + m % 10) as char;
    assert b[|b| - 1] == ('0' as int + n % 10) as char;
    assert m % 10 == n % 10;
    if m < 10 || n < 10 {
      assert |a| == 1 && |b| == 1;
    } else {
      assert Decimal(m / 10) == a[..|a| - 1] && Decimal(n / 10) == b[..|b| - 1];
      DecimalInjective(m / 10, n / 10);
    }
  }

  // ---------- claims ----------

  const LOG_TEMPLATE := "aim-logs"

  /** The name the StatefulSet controller gives to the claim of one template and one pod. */
  function ClaimName(template: string, instance: string, ordinal: nat): string {
    template + "-" + instance + "-" + Decimal(ordinal)
  }

  /** The prefix by which the resize loop recognises the instance's per-pod claims. */
  function ClaimPrefix(instance: string): string {
    LOG_TEMPLATE + "-" + instance + "-"
  }

  /** The shared claim of releases before per-pod claims. */
  function LegacyClaimName(instance: string): string {
    instance + "-log-pvc"
  }

  /** The label selector of the list call together with the prefix test of the loop. */
  predicate Selected(instance: string, name: string, labels: map<string, string>) {
    "app" in labels && labels["app"] == instance && HasPrefix(name, ClaimPrefix(instance))
  }

  /** Selection is exact: a claim of this instance's StatefulSet is selected iff it carries the
      instance's label, a claim labelled for another instance never is, and the legacy claim
      never is whatever its labels say. */
  lemma SelectionExact(instance: string, ordinal: nat, name: string, labels: map<string, string>)
    ensures Selected(instance, name, labels)
            <==> "app" in labels && labels["app"] == instance && HasPrefix(name, "aim-logs-" + instance + "-")
    ensures ClaimName(LOG_TEMPLATE, instance, ordinal) == "aim-logs-" + instance + "-" + Decimal(ordinal)
    ensures Selected(instance, ClaimName(LOG_TEMPLATE, instance, ordinal), labels)
            <==> "app" in labels && labels["app"] == instance
    ensures "app" in labels && labels["app"] != instance ==> !Selected(instance, name, labels)
    ensures !Selected(instance, LegacyClaimName(instance), labels)
  {
    var full := ClaimName(LOG_TEMPLATE, instance, ordinal);
    assert full == ClaimPrefix(instance) + Decimal(ordinal);
    assert |LegacyClaimName(instance)| < |ClaimPrefix(instance)|;
    assert LOG_TEMPLATE + "-" == "aim-logs-";
  }

  /** What the prefix alone would accept: the claims of b pass the prefix test of a exactly
      when b is a, or b's name begins with a's name and a dash. */
  lemma PrefixIsolation(a: string, b: string, ordinal: nat)
    ensures HasPrefix(ClaimName(LOG_TEMPLATE, b, ordinal), ClaimPrefix(a))
            <==> a == b || HasPrefix(b, a + "-")
  {
    var head := LOG_TEMPLATE + "-";
    var rest := b + "-" + Decimal(ordinal);
    var name := ClaimName(LOG_TEMPLATE, b, ordinal);
    assert name == head + rest;
    assert ClaimPrefix(a) == head + (a + "-");
    assert name[|head|..] == rest;
    PrefixCancel(head, rest, a + "-");
    DecimalDigits(ordinal);
    var own := a + "-";
    assert |own| <= |rest| && |a| > |b| ==> rest[|a|] == Decimal(ordinal)[|a| - |b| - 1];
    assert own <= rest ==> rest[|a|] == own[|a|] == '-';
    assert own <= rest && |a| == |b| ==> a == own[..|a|] == rest[..|a|] == b;
    assert own <= rest && |a| < |b| ==> own == rest[..|own|] == b[..|own|];
    if a == b {
      assert rest == own + Decimal(ordinal);
    } else if own <= b {
      assert b == own + b[|own|..];
      assert rest == own + (b[|own|..] + "-" + Decimal(ordinal));
    }
  }

  lemma PrefixCancel(head: string, s: string, p: string)
    ensures head + p <= head + s <==> p <= s
  {
    assert (head + p)[|head|..] == p && (head + s)[|head|..] == s;
    if head + p <= head + s {
      assert (head + s)[..|head + p|] == head + p;
      assert s[..|p|] == (head + s)[..|head + p|][|head|..] == p;
    }
    if p <= s {
      assert s == p + s[|p|..];
      assert head + s == (head + p) + s[|p|..];
    }
  }

  /** Claims of one StatefulSet have the same name only for the same ordinal. */
  lemma ClaimNameInjective(template: string, instance: string, m: nat, n: nat)
    requires ClaimName(template, instance, m) == ClaimName(template, instance, n)
    ensures m == n
  {
    var head := template + "-" + instance + "-";
    assert ClaimName(template, instance, m)[|head|..] == Decimal(m);
    assert ClaimName(template, instance, n)[|head|..] == Decimal(n);
    DecimalInjective(m, n);
  }

  // ---------- pod ordinal ----------

  /** rev */
  function Rev(s: string): string {
    if |s| == 0 then "" else Rev(s[1..]) + [s[0]]
  }

  /** cut -d'-' -f1: everything before the first dash, the whole line when there is none. */
  function CutFirst(s: string): string {
    if |s| == 0 || s[0] == '-' then "" else [s[0]] + CutFirst(s[1..])
  }

  /** The container command's pipeline: echo $POD_NAME | rev | cut -d'-' -f1 | rev. */
  function PipelineOrdinal(podName: string): string {
    Rev(CutFirst(Rev(podName)))
  }

  /** The shell's ${POD_NAME##*-}: drop the longest prefix that ends in a dash. */
  function ExpansionOrdinal(podName: string): string {
    if '-' in podName then ExpansionOrdinal(podName[1..]) else podName
  }

  lemma {:induction false} RevAppend(a: string, b: string)
    ensures Rev(a + b) == Rev(b) + Rev(a)
  {
    if |a| == 0 {
      assert a + b == b;
    } else {
      assert (a + b)[1..] == a[1..] + b;
      RevAppend(a[1..], b);
    }
  }

  lemma {:induction false} RevRev(s: string)
    ensures Rev(Rev(s)) == s
    ensures forall c :: c in Rev(s) <==> c in s
  {
    if |s| != 0 {
      RevRev(s[1..]);
      RevAppend(Rev(s[1..]), [s[0]]);
      assert Rev([s[0]]) == [s[0]];
      assert s == [s[0]] + s[1..];
    }
  }

  lemma {:induction false} CutBefore(segment: string, rest: string)
    requires '-' !in segment
    ensures CutFirst(segment) == segment
    ensures CutFirst(segment + "-" + rest) == segment
  {
    if |segment| == 0 {
      assert segment + "-" + rest == "-" + rest;
    } else {
      CutBefore(segment[1..], rest);
      assert (segment + "-" + rest)[1..] == segment[1..] + "-" + rest;
      assert segment == [segment[0]] + segment[1..];
    }
  }

  lemma {:induction false} ExpansionLast(head: string, segment: string)
    requires '-' !in segment
    ensures ExpansionOrdinal(segment) == segment
    ensures ExpansionOrdinal(head + "-" + segment) == segment
  {
    var whole := head + "-" + segment;
    assert whole[|head|] == '-';
    if |head| == 0 {
      assert whole[1..] == segment;
    } else {
      assert whole[1..] == head[1..] + "-" + segment;
      ExpansionLast(head[1..], segment);
    }
  }

  /** Both ways the deployment computes the ordinal return the text after the last dash. */
  lemma LastSegment(head: string, segment: string)
    requires '-' !in segment
    ensures PipelineOrdinal(segment) == ExpansionOrdinal(segment) == segment
    ensures PipelineOrdinal(head + "-" + segment) == ExpansionOrdinal(head + "-" + segment) == segment
  {
    ExpansionLast(head, segment);
    RevRev(segment);
    CutBefore(Rev(segment), Rev(head));
    RevAppend(head + "-", segment);
    RevAppend(head, "-");
    assert Rev("-") == "-";
    assert Rev(head + "-" + segment) == Rev(segment) + "-" + Rev(head);
  }

  /** The container command and init.sh agree on the ordinal of every pod name. */
  lemma OrdinalsAgree(podName: string)
    ensures PipelineOrdinal(podName) == ExpansionOrdinal(podName)
  {
    var segment := ExpansionOrdinal(podName);
    var k := SplitAtLastDash(podName);
    if k == 0 {
      LastSegment("", podName);
    } else {
      assert podName == podName[..k - 1] + "-" + podName[k..];
      LastSegment(podName[..k - 1], podName[k..]);
    }
  }

  /** The position just after the last dash, or 0 when there is none. */
  function SplitAtLastDash(s: string): (k: nat)
    ensures k <= |s| && '-' !in s[k..]
    ensures k > 0 ==> s[k - 1] == '-'
    ensures k == 0 ==> '-' !in s
  {
    if |s| == 0 then 0
    else
      var k := SplitAtLastDash(s[1..]);
      if k > 0 || s[0] == '-' then
        assert s[k + 1..] == s[1..][k..];
        k + 1
      else
        assert s == [s[0]] + s[1..];
        0
  }

  /** For pod n of any instance, dashes in its name included, the ordinal read back is the
      numeral of n; so the gate in init.sh lets exactly pod 0 through. */
  lemma PodOrdinal(instance: string, n: nat)
    ensures ExpansionOrdinal(instance + "-" + Decimal(n)) == Decimal(n)
    ensures PipelineOrdinal(instance + "-" + Decimal(n)) == Decimal(n)
    ensures ExpansionOrdinal(instance + "-" + Decimal(n)) == "0" <==> n == 0
  {
    DecimalDigits(n);
    LastSegment(instance, Decimal(n));
    if Decimal(n) == "0" {
      assert Decimal(0) == "0";
      DecimalInjective(n, 0);
    }
  }

  /** Claims of an instance have the same name only for the same ordinal, whatever the templates. */
  lemma ClaimNameOrdinal(template: string, other: string, instance: string, m: nat, n: nat)
    requires ClaimName(template, instance, m) == ClaimName(other, instance, n)
    ensures m == n
  {
    DecimalDigits(m);
    DecimalDigits(n);
    LastSegment(template + "-" + instance, Decimal(m));
    LastSegment(other + "-" + instance, Decimal(n));
    DecimalInjective(m, n);
  }
}
