/** `ValidatePRStack` and its parts: the regular expressions of the source, what they accept, and what an accepted spec
    spares the deployment. */
module Validation {
  import opened Types
  import opened Handlers
  import opened Invariants

  // ---------------------------------------------------------------- regular expressions

  datatype Class = Digits | AlNums | Hyphenated | TagChars | Dots

  predicate IsDigit(c: char) { '0' <= c <= '9' }

  predicate IsAlNum(c: char) { IsDigit(c) || 'a' <= c <= 'z' || 'A' <= c <= 'Z' }

  predicate In(c: char, class_: Class) {
    match class_
    case Digits => IsDigit(c)
    case AlNums => IsAlNum(c)
    case Hyphenated => IsAlNum(c) || c == '-'
    case TagChars => IsAlNum(c) || c == '.' || c == '_' || c == '-'
    case Dots => c == '.'
  }

  predicate AllIn(s: string, class_: Class) {
    forall i :: 0 <= i < |s| ==> In(s[i], class_)
  }

  /** `Most(a, n)` is a{0,n}. All expressions are anchored at both ends. */
  datatype Regex = One(class_: Class) | Cat(a: Regex, b: Regex) | Opt(a: Regex) | Star(a: Regex) | Most(a: Regex, n: nat)

  function Size(r: Regex): nat {
    match r
    case One(_) => 0
    case Cat(a, b) => Size(a) + Size(b) + 1
    case Opt(a) => Size(a) + 1
    case Star(a) => Size(a) + 1
    case Most(a, _) => Size(a) + 1
  }

  predicate Matches(r: Regex, s: string)
    decreases Size(r), |s|
  {
    match r
    case One(k) => |s| == 1 && In(s[0], k)
    case Cat(a, b) => exists k :: 0 <= k <= |s| && Matches(a, s[..k]) && Matches(b, s[k..])
    case Opt(a) => s == [] || Matches(a, s)
    case Star(a) => s == [] || exists k :: 0 < k <= |s| && Matches(a, s[..k]) && Matches(r, s[k..])
    case Most(a, n) =>
      s == [] || (n > 0 && exists k :: 0 < k <= |s| && Matches(a, s[..k]) && Matches(Most(a, n - 1), s[k..]))
  }

  const NUMBER := Cat(One(Digits), Star(One(Digits)))
  const TAG := Cat(One(AlNums), Star(One(TagChars)))
  const LABEL := Cat(One(AlNums), Opt(Cat(Most(One(Hyphenated), 61), One(AlNums))))
  const DOMAIN := Cat(LABEL, Star(Cat(One(Dots), LABEL)))

  // ---------------------------------------------------------------- what they accept

  lemma {:induction false} StarOf(class_: Class, s: string)
    ensures Matches(Star(One(class_)), s) <==> AllIn(s, class_)
    decreases |s|
  {
    if s != [] {
      StarOf(class_, s[1..]);
      if Matches(Star(One(class_)), s) {
        var k :| 0 < k <= |s| && Matches(One(class_), s[..k]) && Matches(Star(One(class_)), s[k..]);
        assert k == 1 && s[..1][0] == s[0];
        forall i | 0 <= i < |s| ensures In(s[i], class_) { if i > 0 { assert s[1..][i - 1] == s[i]; } }
      }
      if AllIn(s, class_) {
        assert Matches(One(class_), s[..1]) && Matches(Star(One(class_)), s[1..]);
      }
    }
  }

  lemma {:induction false} MostOf(class_: Class, n: nat, s: string)
    ensures Matches(Most(One(class_), n), s) <==> |s| <= n && AllIn(s, class_)
    decreases |s|
  {
    if s != [] && n > 0 {
      MostOf(class_, n - 1, s[1..]);
      if Matches(Most(One(class_), n), s) {
        var k :| 0 < k <= |s| && Matches(One(class_), s[..k]) && Matches(Most(One(class_), n - 1), s[k..]);
        assert k == 1 && s[..1][0] == s[0];
        forall i | 0 <= i < |s| ensures In(s[i], class_) { if i > 0 { assert s[1..][i - 1] == s[i]; } }
      }
      if |s| <= n && AllIn(s, class_) {
        assert Matches(One(class_), s[..1]) && Matches(Most(One(class_), n - 1), s[1..]);
      }
    }
  }

  /** One character, then any number of others. */
  lemma HeadAndStar(first: Class, rest: Class, s: string)
    ensures Matches(Cat(One(first), Star(One(rest))), s) <==> s != [] && In(s[0], first) && AllIn(s[1..], rest)
  {
    if s != [] { StarOf(rest, s[1..]); }
    if Matches(Cat(One(first), Star(One(rest))), s) {
      var k :| 0 <= k <= |s| && Matches(One(first), s[..k]) && Matches(Star(One(rest)), s[k..]);
      assert k == 1 && s[..1][0] == s[0];
    }
    if s != [] && In(s[0], first) && AllIn(s[1..], rest) {
      assert Matches(One(first), s[..1]) && Matches(Star(One(rest)), s[1..]);
    }
  }

  /** 1 to 63 letters, digits and hyphens, with a letter or digit at both ends. */
  predicate ValidLabel(s: string) {
    1 <= |s| <= 63 && AllIn(s, Hyphenated) && IsAlNum(s[0]) && IsAlNum(s[|s| - 1])
  }

  lemma LabelTail(s: string)
    ensures Matches(Cat(Most(One(Hyphenated), 61), One(AlNums)), s) <==>
            1 <= |s| <= 62 && AllIn(s[..|s| - 1], Hyphenated) && IsAlNum(s[|s| - 1])
  {
    if Matches(Cat(Most(One(Hyphenated), 61), One(AlNums)), s) {
      var k :| 0 <= k <= |s| && Matches(Most(One(Hyphenated), 61), s[..k]) && Matches(One(AlNums), s[k..]);
      assert k == |s| - 1 && s[k..][0] == s[|s| - 1];
      MostOf(Hyphenated, 61, s[..k]);
    }
    if 1 <= |s| <= 62 && AllIn(s[..|s| - 1], Hyphenated) && IsAlNum(s[|s| - 1]) {
      var k := |s| - 1;
      MostOf(Hyphenated, 61, s[..k]);
      assert Matches(Most(One(Hyphenated), 61), s[..k]) && Matches(One(AlNums), s[k..]);
    }
  }

  lemma LabelOf(s: string)
    ensures Matches(LABEL, s) <==> ValidLabel(s)
  {
    var tail := Opt(Cat(Most(One(Hyphenated), 61), One(AlNums)));
    if Matches(LABEL, s) {
      var k :| 0 <= k <= |s| && Matches(One(AlNums), s[..k]) && Matches(tail, s[k..]);
      assert k == 1 && s[..1][0] == s[0];
      LabelTail(s[1..]);
      forall i | 0 <= i < |s| ensures In(s[i], Hyphenated) {
        if 0 < i < |s| - 1 { assert s[1..][..|s[1..]| - 1][i - 1] == s[i]; }
        if i == |s| - 1 && i > 0 { assert s[1..][|s[1..]| - 1] == s[i]; }
      }
      if |s| > 1 { assert s[1..][|s[1..]| - 1] == s[|s| - 1]; }
    }
    if ValidLabel(s) {
      LabelTail(s[1..]);
      if |s| > 1 {
        var t := s[1..|s| - 1];
        assert s[1..][..|s[1..]| - 1] == t;
        forall i | 0 <= i < |t| ensures In(t[i], Hyphenated) { assert t[i] == s[i + 1]; }
      }
      assert Matches(One(AlNums), s[..1]) && Matches(tail, s[1..]);
    }
  }

  // ---------------------------------------------------------------- the domain grammar

  /** The parts of a string between its dots. */
  function Labels(s: string): (labels: seq<string>)
    ensures |labels| >= 1
    decreases |s|
  {
    if s == [] then [[]]
    else if s[0] == '.' then [[]] + Labels(s[1..])
    else
      var rest := Labels(s[1..]);
      [[s[0]] + rest[0]] + rest[1..]
  }

  predicate ValidLabels(s: string) {
    forall i :: 0 <= i < |Labels(s)| ==> ValidLabel(Labels(s)[i])
  }

  lemma {:induction false} LabelsOf(part: string, rest: string)
    requires '.' !in part
    ensures Labels(part) == [part]
    ensures Labels(part + "." + rest) == [part] + Labels(rest)
    decreases |part|
  {
    var s := part + "." + rest;
    if part == [] {
      assert s[0] == '.' && s[1..] == rest;
    } else {
      LabelsOf(part[1..], rest);
      assert s[0] == part[0] != '.' && s[1..] == part[1..] + "." + rest;
      assert [part[0]] + part[1..] == part;
    }
  }

  lemma FirstLabel(part: string, rest: string)
    requires ValidLabel(part)
    ensures ValidLabels(part) && (ValidLabels(part + "." + rest) <==> ValidLabels(rest))
  {
    LabelsOf(part, rest);
    var all := Labels(part + "." + rest);
    assert forall i :: 0 <= i < |Labels(rest)| ==> all[i + 1] == Labels(rest)[i];
    if ValidLabels(part + "." + rest) {
      forall i | 0 <= i < |Labels(rest)| ensures ValidLabel(Labels(rest)[i]) { assert ValidLabel(all[i + 1]); }
    }
  }

  /** A string is its first label, alone or followed by a dot and the rest. */
  lemma {:induction false} FirstDot(s: string) returns (k: nat)
    ensures k <= |s| && '.' !in s[..k] && Labels(s)[0] == s[..k]
    ensures k < |s| ==> s[k] == '.' && s == s[..k] + "." + s[k + 1..]
    decreases |s|
  {
    if s == [] || s[0] == '.' {
      k := 0;
    } else {
      var j := FirstDot(s[1..]);
      k := j + 1;
      assert s[..k] == [s[0]] + s[1..][..j];
      if k < |s| { assert s[1..][j] == s[k]; }
    }
  }

  const MORE := Star(Cat(One(Dots), LABEL))

  lemma DottedLabel(s: string)
    ensures Matches(Cat(One(Dots), LABEL), s) <==> s != [] && s[0] == '.' && ValidLabel(s[1..])
  {
    if s != [] { LabelOf(s[1..]); }
    if Matches(Cat(One(Dots), LABEL), s) {
      var k :| 0 <= k <= |s| && Matches(One(Dots), s[..k]) && Matches(LABEL, s[k..]);
      assert k == 1 && s[..1][0] == s[0];
    }
    if s != [] && s[0] == '.' && ValidLabel(s[1..]) {
      assert Matches(One(Dots), s[..1]) && Matches(LABEL, s[1..]);
    }
  }

  predicate MoreLabels(s: string) {
    s == [] || (s[0] == '.' && ValidLabels(s[1..]))
  }

  /** A valid label followed by nothing or by more labels. */
  lemma LabelThenMore(part: string, more: string)
    requires ValidLabel(part)
    requires more == [] || more[0] == '.'
    ensures ValidLabels(part + more) <==> MoreLabels(more)
  {
    if more == [] {
      assert part + more == part;
      FirstLabel(part, "");
    } else {
      assert part + more == part + "." + more[1..];
      FirstLabel(part, more[1..]);
    }
  }

  lemma {:induction false} MoreSound(s: string)
    requires Matches(MORE, s)
    ensures MoreLabels(s)
    decreases |s|
  {
    if s != [] {
      var k :| 0 < k <= |s| && Matches(Cat(One(Dots), LABEL), s[..k]) && Matches(MORE, s[k..]);
      DottedLabel(s[..k]);
      MoreSound(s[k..]);
      assert s[..k][0] == s[0] && s[1..] == s[..k][1..] + s[k..];
      LabelThenMore(s[..k][1..], s[k..]);
    }
  }

  lemma {:induction false} MoreComplete(s: string)
    requires MoreLabels(s)
    ensures Matches(MORE, s)
    decreases |s|
  {
    if s != [] {
      var t := s[1..];
      var j := FirstDot(t);
      assert ValidLabel(Labels(t)[0]);
      var k := j + 1;
      assert s[..k][0] == '.' && s[..k][1..] == t[..j] && s[k..] == t[j..] && t == t[..j] + t[j..];
      DottedLabel(s[..k]);
      LabelThenMore(t[..j], t[j..]);
      MoreComplete(s[k..]);
      assert Matches(Cat(One(Dots), LABEL), s[..k]) && Matches(MORE, s[k..]);
    }
  }

  /** The domain expression accepts exactly the strings whose labels are all valid. */
  lemma DomainOf(s: string)
    ensures Matches(DOMAIN, s) <==> ValidLabels(s)
  {
    if Matches(DOMAIN, s) {
      var k :| 0 <= k <= |s| && Matches(LABEL, s[..k]) && Matches(MORE, s[k..]);
      LabelOf(s[..k]);
      MoreSound(s[k..]);
      assert s == s[..k] + s[k..];
      LabelThenMore(s[..k], s[k..]);
    }
    if ValidLabels(s) {
      var k := FirstDot(s);
      assert ValidLabel(Labels(s)[0]);
      LabelOf(s[..k]);
      assert s == s[..k] + s[k..];
      LabelThenMore(s[..k], s[k..]);
      MoreComplete(s[k..]);
      assert Matches(LABEL, s[..k]) && Matches(MORE, s[k..]);
    }
  }

  // ---------------------------------------------------------------- the validators

  datatype ValidationError = ValidationError(field: string, message: string)

  function ValidatePRNumber(number: string): Option<ValidationError> {
    if number == "" then Some(ValidationError("prNumber", "PR number is required"))
    else if !Matches(NUMBER, number) then Some(ValidationError("prNumber", "PR number must be numeric"))
    else if |number| > 10 then Some(ValidationError("prNumber", "PR number too long (max 10 digits)"))
    else None
  }

  function ValidateImageTag(tag: string): Option<ValidationError> {
    if tag == "" then Some(ValidationError("imageTag", "image tag cannot be empty"))
    else if !Matches(TAG, tag) then Some(ValidationError("imageTag", "image tag contains invalid characters"))
    else if |tag| > 128 then Some(ValidationError("imageTag", "image tag too long (max 128 characters)"))
    else None
  }

  function ValidateCustomDomain(domain: string): Option<ValidationError> {
    if domain == "" then Some(ValidationError("customDomain", "custom domain cannot be empty"))
    else if !Matches(DOMAIN, domain) then Some(ValidationError("customDomain", "invalid domain format"))
    else if |domain| > 253 then Some(ValidationError("customDomain", "domain too long (max 253 characters)"))
    else None
  }

  /** PR numbers are 1 to 10 digits. */
  lemma NumberGrammar(number: string)
    ensures ValidatePRNumber(number).None? <==> 1 <= |number| <= 10 && AllIn(number, Digits)
  {
    HeadAndStar(Digits, Digits, number);
    if number != "" {
      assert forall i :: 0 <= i < |number[1..]| ==> number[1..][i] == number[i + 1];
      if In(number[0], Digits) && AllIn(number[1..], Digits) {
        forall i | 0 <= i < |number| ensures In(number[i], Digits) { if i > 0 { assert number[1..][i - 1] == number[i]; } }
      }
    }
  }

  /** Image tags are a letter or digit, then at most 127 tag characters. */
  lemma TagGrammar(tag: string)
    ensures ValidateImageTag(tag).None? <==> 1 <= |tag| <= 128 && IsAlNum(tag[0]) && AllIn(tag[1..], TagChars)
  {
    HeadAndStar(AlNums, TagChars, tag);
  }

  /** Custom domains are at most 253 characters long and split at their dots into labels of 1 to 63 letters, digits and
      hyphens with alphanumeric ends. */
  lemma DomainGrammar(domain: string)
    ensures ValidateCustomDomain(domain).None? <==> |domain| <= 253 && ValidLabels(domain)
  {
    DomainOf(domain);
    if domain == "" { assert !ValidLabel(Labels(domain)[0]); }
  }

  /** The default domain of a valid PR number under a valid base is accepted exactly when it is not too long. */
  lemma DefaultDomainAccepted(cfg: Config, pr: string, spec: Spec)
    requires spec.customDomain == "" && ValidatePRNumber(pr).None? && ValidLabels(cfg.baseDomain)
    ensures ValidateCustomDomain(DomainFor(cfg, pr, spec)).None? <==> |DomainFor(cfg, pr, spec)| <= 253
  {
    NumberGrammar(pr);
    var first := "pr-" + pr;
    forall i | 0 <= i < |first| ensures In(first[i], Hyphenated) { if i >= 3 { assert first[i] == pr[i - 3]; } }
    assert first[|first| - 1] == pr[|pr| - 1];
    FirstLabel(first, cfg.baseDomain);
    DomainGrammar(DomainFor(cfg, pr, spec));
  }

  // ---------------------------------------------------------------- ValidatePRStack

  /** A quantity as written; `parses` is the verdict of Kubernetes on it. */
  datatype Quantity = Quantity(text: string, parses: bool)

  datatype Limits = Limits(cpu: Quantity, memory: Quantity, storage: Quantity)

  datatype BackupPlan = BackupPlan(enabled: bool, schedule: string, retentionDays: int, storageSize: Quantity)

  /** The part of a PRStack spec that is validated. */
  datatype Draft = Draft(
    number: string,
    imageTag: string,
    customDomain: string,
    limits: Option<Limits>,
    backup: Option<BackupPlan>)

  predicate IsSpace(c: char) {
    c == ' ' || '\t' <= c <= '\r'
  }

  /** The maximal runs of other characters; `inside` tells that one of them ends right before `s`. */
  function CountFields(s: string, inside: bool): nat
    decreases |s|
  {
    if s == [] then 0
    else if IsSpace(s[0]) then CountFields(s[1..], false)
    else (if inside then 0 else 1) + CountFields(s[1..], true)
  }

  function ValidateQuantity(q: Quantity, field: string): Option<ValidationError> {
    if q.text != "" && !q.parses then Some(ValidationError(field, "invalid resource quantity format")) else None
  }

  function ValidateResourceLimits(l: Limits): Option<ValidationError> {
    if ValidateQuantity(l.cpu, "cpuLimit").Some? then ValidateQuantity(l.cpu, "cpuLimit")
    else if ValidateQuantity(l.memory, "memoryLimit").Some? then ValidateQuantity(l.memory, "memoryLimit")
    else ValidateQuantity(l.storage, "storageLimit")
  }

  function ValidateBackupConfig(b: BackupPlan): Option<ValidationError> {
    if b.enabled && b.schedule != "" && CountFields(b.schedule, false) != 5 then
      Some(ValidationError("backupConfig.schedule", "invalid cron schedule format (expected 5 fields)"))
    else if b.retentionDays < 0 then
      Some(ValidationError("backupConfig.retentionDays", "retention days cannot be negative"))
    else if b.retentionDays > 3650 then
      Some(ValidationError("backupConfig.retentionDays", "retention days too high (max 3650)"))
    else ValidateQuantity(b.storageSize, "backupConfig.storageSize")
  }

  /** The errors so far with one more, if there is one. */
  function Noted(errors: seq<ValidationError>, e: Option<ValidationError>): seq<ValidationError> {
    if e.Some? then errors + [e.value] else errors
  }

  /** The errors of the five parts, in the order of the parts. */
  function Complaints(d: Draft): seq<ValidationError> {
    var e1 := Noted([], ValidatePRNumber(d.number));
    var e2 := if d.imageTag != "" then Noted(e1, ValidateImageTag(d.imageTag)) else e1;
    var e3 := if d.customDomain != "" then Noted(e2, ValidateCustomDomain(d.customDomain)) else e2;
    var e4 := if d.limits.Some? then Noted(e3, ValidateResourceLimits(d.limits.value)) else e3;
    if d.backup.Some? then Noted(e4, ValidateBackupConfig(d.backup.value)) else e4
  }

  predicate Parses(q: Quantity) {
    q.text == "" || q.parses
  }

  /** What a valid spec is, in terms of its parts. */
  predicate Acceptable(d: Draft) {
    && 1 <= |d.number| <= 10 && AllIn(d.number, Digits)
    && (d.imageTag != "" ==> |d.imageTag| <= 128 && IsAlNum(d.imageTag[0]) && AllIn(d.imageTag[1..], TagChars))
    && (d.customDomain != "" ==> |d.customDomain| <= 253 && ValidLabels(d.customDomain))
    && (d.limits.Some? ==>
          Parses(d.limits.value.cpu) && Parses(d.limits.value.memory) && Parses(d.limits.value.storage))
    && (d.backup.Some? ==>
          && 0 <= d.backup.value.retentionDays <= 3650 && Parses(d.backup.value.storageSize)
          && (d.backup.value.enabled && d.backup.value.schedule != "" ==> CountFields(d.backup.value.schedule, false) == 5))
  }

  lemma AcceptedExactly(d: Draft)
    ensures Complaints(d) == [] <==> Acceptable(d)
  {
    NumberGrammar(d.number);
    if d.imageTag != "" { TagGrammar(d.imageTag); }
    DomainGrammar(d.customDomain);
  }

  /** `ValidatePRStack`: the errors of all parts are collected, none hides another. */
  method ValidatePRStack(d: Draft) returns (errors: seq<ValidationError>)
    ensures errors == Complaints(d)
    ensures errors == [] <==> Acceptable(d)
  {
    errors := [];
    AcceptedExactly(d);
    errors := Noted(errors, ValidatePRNumber(d.number));
    if d.imageTag != "" { errors := Noted(errors, ValidateImageTag(d.imageTag)); }
    if d.customDomain != "" { errors := Noted(errors, ValidateCustomDomain(d.customDomain)); }
    if d.limits.Some? { errors := Noted(errors, ValidateResourceLimits(d.limits.value)); }
    if d.backup.Some? { errors := Noted(errors, ValidateBackupConfig(d.backup.value)); }
  }

  // ---------------------------------------------------------------- what validation would spare the operator

  /** `spec` carries the quantities of the draft: the limits a deployment parses are those of CPU and memory, and the
      backup claim takes a default size if none is given. */
  predicate Carries(spec: Spec, d: Draft) {
    && (spec.limitsParse <==> (d.limits.Some? ==> Parses(d.limits.value.cpu) && Parses(d.limits.value.memory)))
    && (spec.backup <==> d.backup.Some? && d.backup.value.enabled)
    && (spec.storageParses <==> (d.backup.Some? ==> Parses(d.backup.value.storageSize)))
  }

  /** An accepted spec has only quantities that parse, so it can neither crash a deployment nor stop it at the backup
      claim. `Reconcile` does not ask for this validation. */
  lemma AcceptedSpecsParse(spec: Spec, d: Draft)
    requires Carries(spec, d) && Complaints(d) == []
    ensures ValidSpec(spec)
  {
    AcceptedExactly(d);
  }
}
