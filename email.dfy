/** The checkout screen's email check: the JavaScript regular expression
    `^[^\s@]+@[^\s@]+\.[^\s@]+$`, tested against the whole field. It is an
    ad-hoc pattern, not the address grammar of RFC 5322. */
module Email {

  /** JavaScript's `\s`: the WhiteSpace and LineTerminator code points of
      sections 12.2 and 12.3 of ECMA-262 (space separators as of Unicode 15). */
  predicate IsSpace(c: char)
  {
    c == '\t' || c == '\n' || c == '\U{000B}' || c == '\U{000C}' || c == '\r' ||
    c == ' ' || c == '\U{00A0}' || c == '\U{1680}' ||
    ('\U{2000}' <= c <= '\U{200A}') ||
    c == '\U{2028}' || c == '\U{2029}' || c == '\U{202F}' || c == '\U{205F}' ||
    c == '\U{3000}' || c == '\U{FEFF}'
  }

  /** The character class `[^\s@]`. */
  predicate PartChar(c: char)
  {
    !IsSpace(c) && c != '@'
  }

  /** The repetition `[^\s@]+`. */
  predicate IsPart(s: string)
  {
    |s| > 0 && forall k :: 0 <= k < |s| ==> PartChar(s[k])
  }

  /** The language of the pattern: `email` splits as `A @ B . C`, each of
      A, B, C a non-empty run of `[^\s@]`. The split points are the literal
      `@` at `at` and the literal `.` at `dot`. */
  predicate ValidateEmail(email: string)
  {
    exists at | 0 <= at < |email| ::
      exists dot | at < dot < |email| ::
        email[at] == '@' && email[dot] == '.' &&
        IsPart(email[..at]) && IsPart(email[at + 1..dot]) && IsPart(email[dot + 1..])
  }

  predicate NoSpace(s: string)
  {
    forall k :: 0 <= k < |s| ==> !IsSpace(s[k])
  }

  /** `at` is the position of the one and only `@` in `s`. */
  predicate OnlyAtSign(s: string, at: int)
  {
    0 <= at < |s| && s[at] == '@' && forall k :: 0 <= k < |s| && s[k] == '@' ==> k == at
  }

  /** `domain` holds a `.` with at least one character before it and one after it. */
  predicate InnerDot(domain: string)
  {
    exists d :: 0 < d < |domain| - 1 && domain[d] == '.'
  }

  /** The shape the pattern accepts, stated without the pattern: no
      whitespace, exactly one `@`, a non-empty local part before it, and a
      domain after it with an inner `.`. */
  ghost predicate EmailShape(email: string)
  {
    NoSpace(email) &&
    exists at :: OnlyAtSign(email, at) && at > 0 && InnerDot(email[at + 1..])
  }

  /** In a matched split, every character but the `@` is in `[^\s@]`. */
  lemma PartsAreAtFree(email: string, at: int, dot: int, k: int)
    requires 0 <= at < dot < |email|
    requires email[dot] == '.'
    requires IsPart(email[..at]) && IsPart(email[at + 1..dot]) && IsPart(email[dot + 1..])
    requires 0 <= k < |email| && k != at
    ensures PartChar(email[k])
  {
  }

  /** A non-empty slice of `[^\s@]` characters is a `[^\s@]+` run. */
  lemma SliceIsPart(s: string, lo: int, hi: int)
    requires 0 <= lo < hi <= |s|
    requires forall k :: lo <= k < hi ==> PartChar(s[k])
    ensures IsPart(s[lo..hi])
  {
  }

  /** The pattern accepts exactly the strings of EmailShape. */
  lemma ValidateEmailIsShape(email: string)
    ensures ValidateEmail(email) <==> EmailShape(email)
  {
    if ValidateEmail(email) {
      var at, dot :| 0 <= at < dot < |email| && email[at] == '@' && email[dot] == '.' &&
        IsPart(email[..at]) && IsPart(email[at + 1..dot]) && IsPart(email[dot + 1..]);
      forall k | 0 <= k < |email| && k != at ensures PartChar(email[k]) {
        PartsAreAtFree(email, at, dot, k);
      }
      assert OnlyAtSign(email, at);
      var domain := email[at + 1..];
      assert domain[dot - at - 1] == '.';
      assert InnerDot(domain);
    }
    if EmailShape(email) {
      var at :| OnlyAtSign(email, at) && at > 0 && InnerDot(email[at + 1..]);
      var domain := email[at + 1..];
      var d :| 0 < d < |domain| - 1 && domain[d] == '.';
      var dot := at + 1 + d;
      assert email[dot] == '.';
      SliceIsPart(email, 0, at);
      SliceIsPart(email, at + 1, dot);
      SliceIsPart(email, dot + 1, |email|);
      assert email[dot + 1..|email|] == email[dot + 1..];
      assert ValidateEmail(email);
    }
  }

  /** A well-formed address is accepted. */
  lemma AcceptsSimpleAddress()
    ensures ValidateEmail("ann@x.com")
  {
    var e := "ann@x.com";
    assert e[..3] == "ann" && e[4..5] == "x" && e[6..] == "com";
    assert e[3] == '@' && e[5] == '.';
  }

  /** The domain's first `.` need not be the split point: `[^\s@]+` also
      matches dots, so a run of dots inside the domain is accepted. */
  lemma AcceptsDoubleDot()
    ensures ValidateEmail("a@b..c")
  {
    var e := "a@b..c";
    assert e[..1] == "a" && e[2..3] == "b" && e[4..] == ".c";
    assert e[1] == '@' && e[3] == '.';
  }

  /** No `.` after the `@`. */
  lemma RejectsMissingDot()
    ensures !ValidateEmail("a@b")
  {
  }

  /** No `@` at all. */
  lemma RejectsMissingAtSign()
    ensures !ValidateEmail("a.com")
  {
  }

  /** A space in the local part. */
  lemma RejectsWhitespace()
    ensures !ValidateEmail("a b@c.com")
  {
    ValidateEmailIsShape("a b@c.com");
    assert IsSpace("a b@c.com"[1]);
  }

  /** A dot right after the `@` is not an inner dot of the domain. */
  lemma RejectsLeadingDomainDot()
    ensures !ValidateEmail("a@.com")
  {
  }
}
