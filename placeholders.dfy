/** `replacePlaceholders` (server/services/gemini.ts): three sequential, global,
    literal replacements of the prompt placeholders. */
module Placeholders {

  const COMPANY_NAME: string := "{COMPANY_NAME}"
  const JOB_TITLE: string := "{JOB_TITLE}"
  const JOB_DESCRIPTION: string := "{JOB_DESCRIPTION}"

  /** The company fields a template is filled with. */
  datatype PromptFields = PromptFields(name: string, jobTitle: string, jobDescription: string)

  /** `m` occurs in `s` starting at index `j`. */
  predicate OccursAt(s: string, m: string, j: nat) {
    j + |m| <= |s| && s[j..j + |m|] == m
  }

  predicate Contains(s: string, m: string) {
    exists j: nat | j <= |s| :: OccursAt(s, m, j)
  }

  /** A placeholder opens with the only `{` it contains. */
  predicate MarkerShape(m: string) {
    |m| > 0 && m[0] == '{' && '{' !in m[1..]
  }

  /** `s.replace(/m/g, r)` for a pattern that matches only the literal `m`: a
      left-to-right scan that replaces each non-overlapping occurrence of `m` by `r`
      and never looks at `r` again. */
  function ReplaceAll(s: string, m: string, r: string): string
    requires m != []
    decreases |s|
  {
    if s == [] then []
    else if OccursAt(s, m, 0) then r + ReplaceAll(s[|m|..], m, r)
    else [s[0]] + ReplaceAll(s[1..], m, r)
  }

  function ReplacePlaceholders(template: string, company: PromptFields): string {
    var afterName := ReplaceAll(template, COMPANY_NAME, company.name);
    var afterTitle := ReplaceAll(afterName, JOB_TITLE, company.jobTitle);
    ReplaceAll(afterTitle, JOB_DESCRIPTION, company.jobDescription)
  }

  // ---------------------------------------------------------------------------
  // An independent reference: `s.split(m).join(r)`.

  /** The pieces of `s` between the occurrences of `m` found by a left-to-right scan. */
  function Split(s: string, m: string): (parts: seq<string>)
    requires m != []
    ensures |parts| >= 1
    decreases |s|
  {
    if s == [] then [""]
    else if OccursAt(s, m, 0) then [""] + Split(s[|m|..], m)
    else
      var p := Split(s[1..], m);
      [[s[0]] + p[0]] + p[1..]
  }

  function Join(parts: seq<string>, sep: string): string {
    if parts == [] then ""
    else if |parts| == 1 then parts[0]
    else parts[0] + sep + Join(parts[1..], sep)
  }

  lemma JoinCons(c: char, parts: seq<string>, sep: string)
    requires |parts| >= 1
    ensures Join([[c] + parts[0]] + parts[1..], sep) == [c] + Join(parts, sep)
  {
    var q := [[c] + parts[0]] + parts[1..];
    assert q[1..] == parts[1..];
  }

  /** Every occurrence is replaced: global replacement is split-then-join. */
  lemma {:induction false} ReplaceIsSplitJoin(s: string, m: string, r: string)
    requires m != []
    ensures ReplaceAll(s, m, r) == Join(Split(s, m), r)
    decreases |s|
  {
    if s == [] {
    } else if OccursAt(s, m, 0) {
      ReplaceIsSplitJoin(s[|m|..], m, r);
      var q := [""] + Split(s[|m|..], m);
      assert q[1..] == Split(s[|m|..], m);
    } else {
      ReplaceIsSplitJoin(s[1..], m, r);
      JoinCons(s[0], Split(s[1..], m), r);
    }
  }

  /** Replacing a pattern by itself gives back the input. */
  lemma {:induction false} ReplaceWithSelf(s: string, m: string)
    requires m != []
    ensures ReplaceAll(s, m, m) == s
    decreases |s|
  {
    if s == [] {
    } else if OccursAt(s, m, 0) {
      ReplaceWithSelf(s[|m|..], m);
      assert s == s[..|m|] + s[|m|..];
    } else {
      ReplaceWithSelf(s[1..], m);
      assert s == [s[0]] + s[1..];
    }
  }

  /** Splitting on `m` and joining with `m` is the identity. */
  lemma SplitJoinRoundTrip(s: string, m: string)
    requires m != []
    ensures Join(Split(s, m), m) == s
  {
    ReplaceIsSplitJoin(s, m, m);
    ReplaceWithSelf(s, m);
  }

  lemma {:induction false} SplitHeadIsPrefix(s: string, m: string)
    requires m != []
    ensures |Split(s, m)[0]| <= |s| && Split(s, m)[0] == s[..|Split(s, m)[0]|]
    decreases |s|
  {
    if s != [] && !OccursAt(s, m, 0) {
      SplitHeadIsPrefix(s[1..], m);
    }
  }

  /** A pattern-free prefix of `s[1..]` stays pattern-free when the first character
      of `s` is put in front, if `s` does not start with the pattern. */
  lemma ConsKeepsFree(s: string, m: string, tail: string)
    requires s != [] && !OccursAt(s, m, 0)
    requires |tail| <= |s[1..]| && tail == s[1..][..|tail|] && !Contains(tail, m)
    ensures !Contains([s[0]] + tail, m)
  {
    var head := [s[0]] + tail;
    assert head == s[..|head|];
    forall j: nat | OccursAt(head, m, j) ensures false {
      if j > 0 {
        assert head[j..j + |m|] == tail[j - 1..j - 1 + |m|];
        assert OccursAt(tail, m, j - 1);
      }
    }
  }

  /** No piece of the split contains the pattern: the scan misses no occurrence. */
  lemma {:induction false} SplitPartsFree(s: string, m: string)
    requires m != []
    ensures forall k :: 0 <= k < |Split(s, m)| ==> !Contains(Split(s, m)[k], m)
    decreases |s|
  {
    if s == [] {
      assert !OccursAt("", m, 0);
    } else if OccursAt(s, m, 0) {
      SplitPartsFree(s[|m|..], m);
      var q := [""] + Split(s[|m|..], m);
      assert forall k :: 1 <= k < |q| ==> q[k] == Split(s[|m|..], m)[k - 1];
    } else {
      var p := Split(s[1..], m);
      SplitPartsFree(s[1..], m);
      SplitHeadIsPrefix(s[1..], m);
      var head := [s[0]] + p[0];
      ConsKeepsFree(s, m, p[0]);
      var q := [head] + p[1..];
      assert forall k :: 1 <= k < |q| ==> q[k] == p[k];
    }
  }

  // ---------------------------------------------------------------------------
  // Templates without placeholders.

  lemma OccursAtTail(s: string, m: string, j: nat)
    requires s != [] && OccursAt(s[1..], m, j)
    ensures OccursAt(s, m, j + 1)
  {
    assert s[j + 1..j + 1 + |m|] == s[1..][j..j + |m|];
  }

  /** A text that does not contain the pattern is returned unchanged. */
  lemma {:induction false} ReplaceAbsent(s: string, m: string, r: string)
    requires m != [] && !Contains(s, m)
    ensures ReplaceAll(s, m, r) == s
    decreases |s|
  {
    if s != [] {
      assert !OccursAt(s, m, 0);
      forall j: nat | OccursAt(s[1..], m, j) ensures false {
        OccursAtTail(s, m, j);
      }
      ReplaceAbsent(s[1..], m, r);
    }
  }

  /** A template containing none of the three placeholders is returned unchanged. */
  lemma NoPlaceholdersUnchanged(template: string, company: PromptFields)
    requires !Contains(template, COMPANY_NAME)
    requires !Contains(template, JOB_TITLE)
    requires !Contains(template, JOB_DESCRIPTION)
    ensures ReplacePlaceholders(template, company) == template
  {
    ReplaceAbsent(template, COMPANY_NAME, company.name);
    ReplaceAbsent(template, JOB_TITLE, company.jobTitle);
    ReplaceAbsent(template, JOB_DESCRIPTION, company.jobDescription);
  }

  /** Brace text that is no placeholder: another name, and a placeholder name in
      lower case. */
  const OTHER_BRACES: string := "{FOO} {company_name}"

  /** Matching is exact and case-sensitive: other brace text is left verbatim. */
  lemma OtherBracesVerbatim(company: PromptFields)
    ensures ReplacePlaceholders(OTHER_BRACES, company) == OTHER_BRACES
  {
    MarkersShaped();
    var ms := [COMPANY_NAME, JOB_TITLE, JOB_DESCRIPTION];
    forall k, j: nat | 0 <= k < 3 && j <= |OTHER_BRACES| ensures !OccursAt(OTHER_BRACES, ms[k], j) {
      if j + |ms[k]| <= |OTHER_BRACES| {
        if j == 0 {
          assert OTHER_BRACES[1] != ms[k][1];
        } else if j == 6 {
          assert OTHER_BRACES[7] != ms[k][1];
        } else {
          assert OTHER_BRACES[j] != '{';
          NoBraceNoMarker(OTHER_BRACES, ms[k], j);
        }
      }
    }
    assert !Contains(OTHER_BRACES, ms[0]) && !Contains(OTHER_BRACES, ms[1]) && !Contains(OTHER_BRACES, ms[2]);
    NoPlaceholdersUnchanged(OTHER_BRACES, company);
  }

  // ---------------------------------------------------------------------------
  // Skipping text that cannot start an occurrence.

  /** If no occurrence starts inside `a`, the scan copies `a` and continues on `b`. */
  lemma {:induction false} ReplaceSkips(a: string, b: string, m: string, r: string)
    requires m != []
    requires forall j: nat :: j < |a| ==> !OccursAt(a + b, m, j)
    ensures ReplaceAll(a + b, m, r) == a + ReplaceAll(b, m, r)
    decreases |a|
  {
    if a != [] {
      assert !OccursAt(a + b, m, 0);
      assert (a + b)[1..] == a[1..] + b;
      forall j: nat | j < |a[1..]| ensures !OccursAt(a[1..] + b, m, j) {
        if OccursAt(a[1..] + b, m, j) {
          OccursAtTail(a + b, m, j);
        }
      }
      ReplaceSkips(a[1..], b, m, r);
      assert a == [a[0]] + a[1..];
    } else {
      assert a + b == b;
    }
  }

  lemma NoBraceNoMarker(s: string, m: string, j: nat)
    requires MarkerShape(m) && j < |s| && s[j] != '{'
    ensures !OccursAt(s, m, j)
  {
  }

  /** Text without `{` passes through a replacement unchanged. */
  lemma ReplaceSkipsBraceFree(a: string, b: string, m: string, r: string)
    requires MarkerShape(m) && '{' !in a
    ensures ReplaceAll(a + b, m, r) == a + ReplaceAll(b, m, r)
  {
    forall j: nat | j < |a| ensures !OccursAt(a + b, m, j) {
      assert (a + b)[j] == a[j];
      NoBraceNoMarker(a + b, m, j);
    }
    ReplaceSkips(a, b, m, r);
  }

  lemma ReplaceBraceFree(a: string, m: string, r: string)
    requires MarkerShape(m) && '{' !in a
    ensures ReplaceAll(a, m, r) == a
  {
    ReplaceSkipsBraceFree(a, "", m, r);
    assert a + "" == a;
  }

  lemma ReplaceAtMarker(b: string, m: string, r: string)
    requires m != []
    ensures ReplaceAll(m + b, m, r) == r + ReplaceAll(b, m, r)
  {
    assert (m + b)[..|m|] == m;
    assert (m + b)[|m|..] == b;
  }

  lemma MarkersShaped()
    ensures MarkerShape(COMPANY_NAME) && MarkerShape(JOB_TITLE) && MarkerShape(JOB_DESCRIPTION)
  {
    assert COMPANY_NAME[1..] == "COMPANY_NAME}";
    assert JOB_TITLE[1..] == "JOB_TITLE}";
    assert JOB_DESCRIPTION[1..] == "JOB_DESCRIPTION}";
  }

  lemma DearTailUntouched(name: string)
    ensures ReplaceAll(", re: " + JOB_TITLE, COMPANY_NAME, name) == ", re: " + JOB_TITLE
  {
    MarkersShaped();
    ReplaceSkipsBraceFree(", re: ", JOB_TITLE, COMPANY_NAME, name);
    assert !Contains(JOB_TITLE, COMPANY_NAME);
    ReplaceAbsent(JOB_TITLE, COMPANY_NAME, name);
  }

  lemma DearFirstPass(name: string, tail: string)
    requires ReplaceAll(tail, COMPANY_NAME, name) == tail
    ensures ReplaceAll("Dear " + (COMPANY_NAME + tail), COMPANY_NAME, name)
            == "Dear " + name + tail
  {
    MarkersShaped();
    ReplaceSkipsBraceFree("Dear ", COMPANY_NAME + tail, COMPANY_NAME, name);
    ReplaceAtMarker(tail, COMPANY_NAME, name);
  }

  lemma DearSecondPass(name: string, title: string)
    requires '{' !in name
    ensures ReplaceAll("Dear " + name + ", re: " + JOB_TITLE, JOB_TITLE, title)
            == "Dear " + name + ", re: " + title
  {
    MarkersShaped();
    var prefix := "Dear " + name + ", re: ";
    assert '{' !in prefix;
    assert prefix + JOB_TITLE == prefix + (JOB_TITLE + "");
    ReplaceSkipsBraceFree(prefix, JOB_TITLE + "", JOB_TITLE, title);
    ReplaceAtMarker("", JOB_TITLE, title);
  }

  /** The scenario `"Dear {COMPANY_NAME}, re: {JOB_TITLE}"` becomes
      `"Dear " + name + ", re: " + title` for any name and title without `{`. */
  lemma DearScenario(company: PromptFields)
    requires '{' !in company.name && '{' !in company.jobTitle
    ensures ReplacePlaceholders("Dear " + COMPANY_NAME + ", re: " + JOB_TITLE, company)
            == "Dear " + company.name + ", re: " + company.jobTitle
  {
    MarkersShaped();
    assert "Dear " + COMPANY_NAME + ", re: " + JOB_TITLE == "Dear " + (COMPANY_NAME + (", re: " + JOB_TITLE));
    DearTailUntouched(company.name);
    DearFirstPass(company.name, ", re: " + JOB_TITLE);
    assert "Dear " + company.name + (", re: " + JOB_TITLE) == "Dear " + company.name + ", re: " + JOB_TITLE;
    DearSecondPass(company.name, company.jobTitle);
    var s2 := "Dear " + company.name + ", re: " + company.jobTitle;
    assert '{' !in s2;
    ReplaceBraceFree(s2, JOB_DESCRIPTION, company.jobDescription);
  }

  lemma AcmeExample()
    ensures ReplacePlaceholders("Dear " + COMPANY_NAME + ", re: " + JOB_TITLE,
                                PromptFields("Acme", "Engineer", "Build things"))
            == "Dear Acme, re: Engineer"
  {
    DearScenario(PromptFields("Acme", "Engineer", "Build things"));
  }

  // ---------------------------------------------------------------------------
  // Sequencing of the three passes.

  lemma DiffersAt(s: string, m: string, i: nat)
    requires i < |m| && i < |s| && s[i] != m[i]
    ensures !OccursAt(s, m, 0)
  {
  }

  /** A placeholder followed by brace-free text survives a pass for another placeholder. */
  lemma ReplaceOtherMarker(m: string, b: string, m2: string, r: string)
    requires MarkerShape(m) && MarkerShape(m2) && '{' !in b
    requires !OccursAt(m + b, m2, 0)
    ensures ReplaceAll(m + b, m2, r) == m + b
  {
    var s := m + b;
    assert s[1..] == m[1..] + b;
    ReplaceBraceFree(s[1..], m2, r);
    assert s == [s[0]] + s[1..];
  }

  /** The substituted company name is itself rewritten by the title and description passes. */
  lemma NameFedToLaterPasses(company: PromptFields)
    ensures ReplacePlaceholders(COMPANY_NAME, company)
            == ReplaceAll(ReplaceAll(company.name, JOB_TITLE, company.jobTitle),
                          JOB_DESCRIPTION, company.jobDescription)
  {
    ReplaceAtMarker("", COMPANY_NAME, company.name);
    assert COMPANY_NAME + "" == COMPANY_NAME;
    assert company.name + "" == company.name;
  }

  /** A name that is the text `{JOB_TITLE}` ends up as the job title. */
  lemma NameWithTitleToken(title: string, description: string)
    requires '{' !in title
    ensures ReplacePlaceholders(COMPANY_NAME, PromptFields(JOB_TITLE, title, description)) == title
  {
    MarkersShaped();
    NameFedToLaterPasses(PromptFields(JOB_TITLE, title, description));
    ReplaceAtMarker("", JOB_TITLE, title);
    assert JOB_TITLE + "" == JOB_TITLE;
    assert title + "" == title;
    ReplaceBraceFree(title, JOB_DESCRIPTION, description);
  }

  /** The passes for the company name and the job title leave a description
      placeholder between brace-free texts as it is. */
  lemma DescriptionPlaceholderSurvives(a: string, b: string, m: string, r: string)
    requires '{' !in a && '{' !in b
    requires m == COMPANY_NAME || m == JOB_TITLE
    ensures ReplaceAll(a + JOB_DESCRIPTION + b, m, r) == a + JOB_DESCRIPTION + b
  {
    MarkersShaped();
    assert a + JOB_DESCRIPTION + b == a + (JOB_DESCRIPTION + b);
    ReplaceSkipsBraceFree(a, JOB_DESCRIPTION + b, m, r);
    if m == COMPANY_NAME {
      DiffersAt(JOB_DESCRIPTION + b, m, 1);
    } else {
      DiffersAt(JOB_DESCRIPTION + b, m, 5);
    }
    ReplaceOtherMarker(JOB_DESCRIPTION, b, m, r);
  }

  /** The job description is substituted last and verbatim: placeholders inside it
      are never rewritten. */
  lemma DescriptionVerbatim(a: string, b: string, company: PromptFields)
    requires '{' !in a && '{' !in b
    ensures ReplacePlaceholders(a + JOB_DESCRIPTION + b, company) == a + company.jobDescription + b
  {
    DescriptionPlaceholderSurvives(a, b, COMPANY_NAME, company.name);
    DescriptionPlaceholderSurvives(a, b, JOB_TITLE, company.jobTitle);
    MarkersShaped();
    assert a + JOB_DESCRIPTION + b == a + (JOB_DESCRIPTION + b);
    ReplaceSkipsBraceFree(a, JOB_DESCRIPTION + b, JOB_DESCRIPTION, company.jobDescription);
    ReplaceAtMarker(b, JOB_DESCRIPTION, company.jobDescription);
    ReplaceBraceFree(b, JOB_DESCRIPTION, company.jobDescription);
  }

  // ---------------------------------------------------------------------------
  // When is every placeholder gone?

  /** Every `{` of `s` opens an occurrence of one of `markers`. */
  ghost predicate BracesOpen(s: string, markers: seq<string>) {
    forall j: nat :: j < |s| && s[j] == '{' ==>
      exists k :: 0 <= k < |markers| && OccursAt(s, markers[k], j)
  }

  lemma OccursAtShift(a: string, x: string, m: string, i: nat)
    requires OccursAt(x, m, i)
    ensures OccursAt(a + x, m, |a| + i)
  {
    assert (a + x)[|a| + i..|a| + i + |m|] == x[i..i + |m|];
  }

  lemma OccursAtDrop(s: string, n: nat, m: string, j: nat)
    requires n <= |s| && OccursAt(s, m, n + j)
    ensures OccursAt(s[n..], m, j)
  {
    assert s[n..][j..j + |m|] == s[n + j..n + j + |m|];
  }

  lemma BracesOpenDrop(s: string, n: nat, markers: seq<string>)
    requires n <= |s| && BracesOpen(s, markers)
    ensures BracesOpen(s[n..], markers)
  {
    forall j: nat | j < |s[n..]| && s[n..][j] == '{'
      ensures exists k :: 0 <= k < |markers| && OccursAt(s[n..], markers[k], j)
    {
      assert s[n + j] == '{';
      var k :| 0 <= k < |markers| && OccursAt(s, markers[k], n + j);
      OccursAtDrop(s, n, markers[k], j);
    }
  }

  /** The step where the scan replaces an occurrence at the front. */
  lemma BracesOpenReplaced(r: string, x: string, others: seq<string>)
    requires '{' !in r && BracesOpen(x, others)
    ensures BracesOpen(r + x, others)
  {
    var out := r + x;
    forall j: nat | j < |out| && out[j] == '{'
      ensures exists k :: 0 <= k < |others| && OccursAt(out, others[k], j)
    {
      assert j >= |r| && out[j] == x[j - |r|];
      var k :| 0 <= k < |others| && OccursAt(x, others[k], j - |r|);
      OccursAtShift(r, x, others[k], j - |r|);
    }
  }

  /** The step where the scan copies a character that opens another placeholder. */
  lemma BracesOpenCopied(s: string, m: string, m2: string, r: string)
    requires MarkerShape(m) && MarkerShape(m2) && OccursAt(s, m2, 0)
    ensures OccursAt([s[0]] + ReplaceAll(s[1..], m, r), m2, 0)
  {
    var rest := s[|m2|..];
    assert s == m2 + rest;
    assert s[1..] == m2[1..] + rest;
    ReplaceSkipsBraceFree(m2[1..], rest, m, r);
    assert [s[0]] + ReplaceAll(s[1..], m, r) == m2 + ReplaceAll(rest, m, r);
  }

  /** The step where the scan copies a character that does not start `m`. */
  lemma BracesOpenKept(s: string, m: string, others: seq<string>, r: string)
    requires MarkerShape(m) && forall k :: 0 <= k < |others| ==> MarkerShape(others[k])
    requires s != [] && !OccursAt(s, m, 0) && BracesOpen(s, [m] + others)
    requires BracesOpen(ReplaceAll(s[1..], m, r), others)
    ensures BracesOpen([s[0]] + ReplaceAll(s[1..], m, r), others)
  {
    var ms := [m] + others;
    var x := ReplaceAll(s[1..], m, r);
    var out := [s[0]] + x;
    forall j: nat | j < |out| && out[j] == '{'
      ensures exists k :: 0 <= k < |others| && OccursAt(out, others[k], j)
    {
      if j == 0 {
        var k :| 0 <= k < |ms| && OccursAt(s, ms[k], 0);
        assert k != 0 && ms[k] == others[k - 1];
        BracesOpenCopied(s, m, others[k - 1], r);
      } else {
        var k :| 0 <= k < |others| && OccursAt(x, others[k], j - 1);
        OccursAtShift([s[0]], x, others[k], j - 1);
      }
    }
  }

  /** One pass for `m` keeps "every `{` opens a placeholder" for the remaining
      placeholders, provided the replacement brings no `{` of its own. */
  lemma {:induction false} PassKeepsBracesOpen(s: string, m: string, others: seq<string>, r: string)
    requires MarkerShape(m) && forall k :: 0 <= k < |others| ==> MarkerShape(others[k])
    requires '{' !in r
    requires BracesOpen(s, [m] + others)
    ensures BracesOpen(ReplaceAll(s, m, r), others)
    decreases |s|
  {
    var ms := [m] + others;
    if s == [] {
    } else if OccursAt(s, m, 0) {
      BracesOpenDrop(s, |m|, ms);
      PassKeepsBracesOpen(s[|m|..], m, others, r);
      BracesOpenReplaced(r, ReplaceAll(s[|m|..], m, r), others);
    } else {
      BracesOpenDrop(s, 1, ms);
      PassKeepsBracesOpen(s[1..], m, others, r);
      BracesOpenKept(s, m, others, r);
    }
  }

  /** For a template whose every `{` opens one of the three placeholders, filled with
      values that contain no `{`, the prompt contains no `{` and hence no placeholder. */
  lemma NoPlaceholderLeft(template: string, company: PromptFields)
    requires BracesOpen(template, [COMPANY_NAME, JOB_TITLE, JOB_DESCRIPTION])
    requires '{' !in company.name && '{' !in company.jobTitle && '{' !in company.jobDescription
    ensures '{' !in ReplacePlaceholders(template, company)
    ensures !Contains(ReplacePlaceholders(template, company), COMPANY_NAME)
    ensures !Contains(ReplacePlaceholders(template, company), JOB_TITLE)
    ensures !Contains(ReplacePlaceholders(template, company), JOB_DESCRIPTION)
  {
    MarkersShaped();
    assert [COMPANY_NAME, JOB_TITLE, JOB_DESCRIPTION] == [COMPANY_NAME] + [JOB_TITLE, JOB_DESCRIPTION];
    PassKeepsBracesOpen(template, COMPANY_NAME, [JOB_TITLE, JOB_DESCRIPTION], company.name);
    var s1 := ReplaceAll(template, COMPANY_NAME, company.name);
    assert [JOB_TITLE, JOB_DESCRIPTION] == [JOB_TITLE] + [JOB_DESCRIPTION];
    PassKeepsBracesOpen(s1, JOB_TITLE, [JOB_DESCRIPTION], company.jobTitle);
    var s2 := ReplaceAll(s1, JOB_TITLE, company.jobTitle);
    assert [JOB_DESCRIPTION] == [JOB_DESCRIPTION] + [];
    PassKeepsBracesOpen(s2, JOB_DESCRIPTION, [], company.jobDescription);
    var out := ReplacePlaceholders(template, company);
    forall j | 0 <= j < |out| ensures out[j] != '{' {
      assert BracesOpen(out, []);
    }
    forall m, j: nat | m in [COMPANY_NAME, JOB_TITLE, JOB_DESCRIPTION] && OccursAt(out, m, j)
      ensures false
    {
    }
  }

  /** Values free of placeholders are not enough: the name `{` completes the text
      `COMPANY_NAME}` that follows the placeholder into a new placeholder, whatever
      the title and description are. */
  lemma TokenFreeValuesCanLeaveTokens(title: string, description: string)
    ensures !Contains("{", COMPANY_NAME)
    ensures Contains(ReplacePlaceholders(COMPANY_NAME + COMPANY_NAME[1..],
                                         PromptFields("{", title, description)),
                     COMPANY_NAME)
  {
    MarkersShaped();
    var rest := COMPANY_NAME[1..];
    ReplaceAtMarker(rest, COMPANY_NAME, "{");
    ReplaceBraceFree(rest, COMPANY_NAME, "{");
    assert "{" + rest == COMPANY_NAME + "";
    DiffersAt(COMPANY_NAME + "", JOB_TITLE, 1);
    ReplaceOtherMarker(COMPANY_NAME, "", JOB_TITLE, title);
    DiffersAt(COMPANY_NAME + "", JOB_DESCRIPTION, 1);
    ReplaceOtherMarker(COMPANY_NAME, "", JOB_DESCRIPTION, description);
    var out := ReplacePlaceholders(COMPANY_NAME + rest, PromptFields("{", title, description));
    assert out == COMPANY_NAME + "";
    assert OccursAt(out, COMPANY_NAME, 0);
  }
}
