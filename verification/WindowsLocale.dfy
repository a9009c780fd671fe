/** `normalize_windows_locale` of gui/rufusarm64_logic.py. */
module WindowsLocale {
  import opened Base

  /** Python's `str.upper` and `str.lower`. */
  datatype Case = Case(upper: string -> string, lower: string -> string)

  predicate LowerLetter(c: char) { 'a' <= c <= 'z' }

  predicate UpperLetter(c: char) { 'A' <= c <= 'Z' }

  predicate Letter(c: char) { LowerLetter(c) || UpperLetter(c) }

  predicate Alnum(c: char) { Letter(c) || '0' <= c <= '9' }

  predicate Ascii(s: string) {
    forall c :: c in s ==> c < '\U{80}'
  }

  /** What the Unicode case tables guarantee: ASCII texts map letter by letter,
      lower case holds no ASCII capital and upper case no small ASCII letter, no
      mapping yields a hyphen, and a final line feed stays where it is and appears
      nowhere else. */
  ghost predicate Unicode(c: Case) {
    && (forall s :: Ascii(s) ==> c.upper(s) == Upper(s) && c.lower(s) == Lower(s))
    && (forall s, x :: x in c.lower(s) ==> !UpperLetter(x))
    && (forall s, x :: x in c.upper(s) ==> !LowerLetter(x))
    && (forall s :: '-' !in s ==> '-' !in c.upper(s) && '-' !in c.lower(s))
    && (forall s :: Feeds(c.upper(s)) <==> Feeds(s))
    && (forall s :: Feeds(c.lower(s)) <==> Feeds(s))
  }

  /** The text ends in a line feed. */
  predicate Feeds(s: string) {
    s != "" && s[|s| - 1] == '\n'
  }

  /** `value.split("-")`. */
  function Split(s: string): (parts: seq<string>)
    ensures |parts| > 0
  {
    if s == "" then [""]
    else
      var rest := Split(s[1..]);
      if s[0] == '-' then [""] + rest else [[s[0]] + rest[0]] + rest[1..]
  }

  /** `"-".join(parts)`. */
  function Join(parts: seq<string>): string
    requires |parts| > 0
  {
    if |parts| == 1 then parts[0] else parts[0] + "-" + Join(parts[1..])
  }

  function Hyphens(s: string): string {
    seq(|s|, i requires 0 <= i < |s| => if s[i] == '_' then '-' else s[i])
  }

  predicate Language(s: string) {
    2 <= |s| <= 3 && forall c :: c in s ==> Letter(c)
  }

  predicate Subtag(s: string) {
    2 <= |s| <= 8 && forall c :: c in s ==> Alnum(c)
  }

  /** The language tag the pattern describes. */
  predicate Tag(s: string) {
    var parts := Split(s);
    Language(parts[0]) && forall i :: 1 <= i < |parts| ==> Subtag(parts[i])
  }

  /** `LOCALE_PATTERN.match`: the `$` of the pattern also matches before a final
      line feed. */
  predicate Matches(s: string) {
    Tag(Chop(s)) || Tag(s)
  }

  function Chop(s: string): string {
    if Feeds(s) then s[..|s| - 1] else s
  }

  function Cased(c: Case, w: string): string {
    var parts := Split(w);
    if |parts| >= 2 then Join([c.lower(parts[0]), c.upper(parts[1])] + parts[2..]) else c.lower(w)
  }

  predicate Unnamed(c: Case, v: string) {
    v == "" || c.upper(v) in ["C", "POSIX", "C.UTF-8", "C.UTF8"]
  }

  /** The part of a value that names the language and its region. */
  function Named(value: string): string {
    Hyphens(Before(Before(Strip(value), '@'), '.'))
  }

  function Normalize(c: Case, value: string): string {
    var v := Strip(value);
    if Unnamed(c, v) then ""
    else
      var cased := Cased(c, Named(value));
      if Matches(cased) then cased else ""
  }

  // --------------------------------------------------------------- proofs

  lemma {:induction false} SplitHasNoHyphen(s: string)
    ensures forall i :: 0 <= i < |Split(s)| ==> '-' !in Split(s)[i]
  {
    if s != "" { SplitHasNoHyphen(s[1..]); }
  }

  lemma {:induction false} SplitOfPrefix(head: string, tail: string)
    requires '-' !in head
    ensures Split(head + "-" + tail) == [head] + Split(tail)
  {
    var s := head + "-" + tail;
    if head == "" {
      assert s == ['-'] + tail && s[1..] == tail;
    } else {
      assert s[0] == head[0] && s[1..] == head[1..] + "-" + tail;
      SplitOfPrefix(head[1..], tail);
      assert head == [head[0]] + head[1..];
    }
  }

  lemma {:induction false} SplitOfPlain(s: string)
    requires '-' !in s
    ensures Split(s) == [s]
  {
    if s != "" {
      SplitOfPlain(s[1..]);
      assert s == [s[0]] + s[1..];
    }
  }

  lemma {:induction false} SplitJoin(parts: seq<string>)
    requires |parts| > 0 && forall i :: 0 <= i < |parts| ==> '-' !in parts[i]
    ensures Split(Join(parts)) == parts
  {
    if |parts| == 1 {
      SplitOfPlain(parts[0]);
    } else {
      SplitJoin(parts[1..]);
      SplitOfPrefix(parts[0], Join(parts[1..]));
      assert parts == [parts[0]] + parts[1..];
    }
  }

  lemma {:induction false} JoinSplit(s: string)
    ensures Join(Split(s)) == s
  {
    if s != "" {
      JoinSplit(s[1..]);
      var rest := Split(s[1..]);
      if s[0] != '-' && |rest| > 1 {
        assert Split(s)[1..] == rest[1..];
      }
      assert s == [s[0]] + s[1..];
    }
  }

  /** The parts with the last character of the last part cut off. */
  function CutLast(parts: seq<string>): seq<string>
    requires |parts| > 0 && parts[|parts| - 1] != ""
  {
    var last := parts[|parts| - 1];
    parts[..|parts| - 1] + [last[..|last| - 1]]
  }

  lemma Prepended(ch: char, rest: seq<string>)
    requires |rest| > 0 && rest[|rest| - 1] != ""
    ensures var p, cut := [[ch] + rest[0]] + rest[1..], CutLast(rest);
            CutLast(p) == [[ch] + cut[0]] + cut[1..]
  {
    var p, cut := [[ch] + rest[0]] + rest[1..], CutLast(rest);
    if |rest| == 1 {
      assert ([ch] + rest[0])[..|rest[0]|] == [ch] + rest[0][..|rest[0]| - 1];
    } else {
      assert CutLast(p)[1..] == cut[1..];
    }
  }

  /** Cutting the last character cuts the last part. */
  lemma {:induction false} SplitChopped(s: string)
    requires s != "" && s[|s| - 1] != '-'
    ensures var p := Split(s); p[|p| - 1] != "" && Split(s[..|s| - 1]) == CutLast(p)
  {
    var p := Split(s);
    if |s| == 1 {
      assert Split(s[1..]) == [""];
      assert p == [[s[0]] + ""] && [s[0]] + "" == s;
      assert s[..0] == "";
    } else {
      var tail := s[1..];
      SplitChopped(tail);
      var rest := Split(tail);
      assert s[..|s| - 1][1..] == tail[..|tail| - 1];
      var cut := CutLast(rest);
      if s[0] == '-' {
        assert p == [""] + rest;
        assert CutLast(p) == [""] + cut;
      } else {
        Prepended(s[0], rest);
      }
    }
  }

  /** The normalizer's own letter case. */
  ghost predicate InCase(t: string) {
    var parts := Split(t);
    && (forall x :: x in parts[0] ==> !UpperLetter(x))
    && (|parts| >= 2 ==> forall x :: x in parts[1] ==> !LowerLetter(x))
  }

  lemma {:induction false} TagCharacters(s: string, parts: seq<string>)
    requires parts == Split(s) && forall i :: 0 <= i < |parts| ==> forall x :: x in parts[i] ==> Alnum(x)
    ensures forall x :: x in s ==> Alnum(x) || x == '-'
    decreases |s|
  {
    if s != "" {
      var rest := Split(s[1..]);
      if s[0] != '-' {
        assert parts[0] == [s[0]] + rest[0];
        assert s[0] in parts[0];
      }
      forall i | 0 <= i < |rest| ensures forall x :: x in rest[i] ==> Alnum(x) {
        if s[0] == '-' { assert rest[i] == parts[i + 1]; }
        else if i > 0 { assert rest[i] == parts[i]; }
        else { assert forall x :: x in rest[0] ==> x in parts[0]; }
      }
      TagCharacters(s[1..], rest);
      assert s == [s[0]] + s[1..];
    }
  }

  lemma TagIsPlain(t: string)
    requires Tag(t)
    ensures |t| >= 2 && forall x :: x in t ==> Alnum(x) || x == '-'
    ensures Unspaced(t)
  {
    var parts := Split(t);
    TagCharacters(t, parts);
    JoinSplit(t);
    SplitHasNoHyphen(t);
    assert t[0] in t && t[|t| - 1] in t;
  }

  /** A tag is no name of the C locale. */
  lemma TagIsNamed(c: Case, t: string)
    requires Unicode(c) && Tag(t)
    ensures !Unnamed(c, t)
  {
    TagIsPlain(t);
    assert Ascii(t);
    NotShort(t);
    NotDotted(t);
  }

  lemma NotShort(t: string)
    requires Tag(t) && |t| >= 2
    ensures Upper(t) != "C" && Upper(t) != "POSIX"
  {
    var u := Upper(t);
    if '-' in t {
      var i :| 0 <= i < |t| && t[i] == '-';
      assert u[i] == '-';
      assert '-' !in "POSIX";
    } else {
      SplitOfPlain(t);
      assert |"POSIX"| == 5;
    }
  }

  lemma NotDotted(t: string)
    requires |t| >= 2 && forall x :: x in t ==> Alnum(x) || x == '-'
    ensures Upper(t) != "C.UTF-8" && Upper(t) != "C.UTF8"
  {
    assert t[1] in t;
    assert Upper(t)[1] != '.';
    assert "C.UTF-8"[1] == '.' && "C.UTF8"[1] == '.';
  }

  /** A tag in the normalizer's case is left alone. */
  lemma InCaseIsFixed(c: Case, value: string, t: string)
    requires Unicode(c) && Tag(t) && InCase(t) && Strip(value) == t
    ensures Normalize(c, value) == t
  {
    TagIsNamed(c, t);
    TagStays(value, t);
    CasedStays(c, t);
  }

  lemma TagStays(value: string, t: string)
    requires Tag(t) && Strip(value) == t
    ensures Named(value) == t && Chop(t) == t
  {
    TagIsPlain(t);
    BeforeAbsent(t, '@');
    BeforeAbsent(t, '.');
    assert '_' !in t;
    assert Hyphens(t) == t;
  }

  lemma CasedStays(c: Case, t: string)
    requires Unicode(c) && Tag(t) && InCase(t)
    ensures Cased(c, t) == t
  {
    var parts := Split(t);
    JoinSplit(t);
    CaseIsKept(c, t);
    if |parts| >= 2 {
      assert [c.lower(parts[0]), c.upper(parts[1])] + parts[2..] == parts;
    } else {
      assert parts == [t];
    }
  }

  lemma LowerStays(s: string)
    requires forall x :: x in s ==> !UpperLetter(x)
    ensures Lower(s) == s
  {
    forall i | 0 <= i < |s| ensures Lower(s)[i] == s[i] { assert s[i] in s; }
  }

  lemma UpperStays(s: string)
    requires forall x :: x in s ==> !LowerLetter(x)
    ensures Upper(s) == s
  {
    forall i | 0 <= i < |s| ensures Upper(s)[i] == s[i] { assert s[i] in s; }
  }

  lemma CaseIsKept(c: Case, t: string)
    requires Unicode(c) && Tag(t) && InCase(t)
    ensures var parts := Split(t); c.lower(parts[0]) == parts[0] && (|parts| >= 2 ==> c.upper(parts[1]) == parts[1])
  {
    var parts := Split(t);
    assert Ascii(parts[0]);
    LowerStays(parts[0]);
    if |parts| >= 2 {
      assert Ascii(parts[1]);
      UpperStays(parts[1]);
    }
  }

  /** The case the normalizer puts on the parts of its result. */
  lemma CasedParts(c: Case, w: string)
    requires Unicode(c)
    ensures var p := Split(Cased(c, w));
            && (forall x :: x in p[0] ==> !UpperLetter(x))
            && (|p| >= 2 ==> forall x :: x in p[1] ==> !LowerLetter(x))
  {
    var parts := Split(w);
    SplitHasNoHyphen(w);
    if |parts| >= 2 {
      var q := [c.lower(parts[0]), c.upper(parts[1])] + parts[2..];
      SplitJoin(q);
    } else {
      JoinSplit(w);
      assert parts == [w];
      SplitOfPlain(c.lower(w));
    }
  }

  /** Every non-empty result is a tag in the normalizer's case, possibly followed
      by one line feed. */
  lemma ResultIsInCase(c: Case, value: string)
    requires Unicode(c) && Normalize(c, value) != ""
    ensures Tag(Chop(Normalize(c, value))) && InCase(Chop(Normalize(c, value)))
  {
    var r := Normalize(c, value);
    CasedParts(c, Named(value));
    var t := Chop(r);
    TagEnds(r);
    if r[|r| - 1] == '\n' {
      SplitChopped(r);
      ChoppedCase(Split(r));
    }
  }

  lemma ChoppedCase(p: seq<string>)
    requires |p| > 0 && p[|p| - 1] != "" && forall x :: x in p[0] ==> !UpperLetter(x)
    requires |p| >= 2 ==> forall x :: x in p[1] ==> !LowerLetter(x)
    ensures var q := CutLast(p);
            (forall x :: x in q[0] ==> !UpperLetter(x)) && (|q| >= 2 ==> forall x :: x in q[1] ==> !LowerLetter(x))
  {
    var q, last := CutLast(p), p[|p| - 1];
    forall x | x in last[..|last| - 1] ensures x in last { }
    assert |p| >= 2 ==> q[0] == p[0];
    assert |p| >= 3 ==> q[1] == p[1];
  }

  /** A tag does not end with a line feed. */
  lemma TagEnds(r: string)
    ensures Tag(r) ==> Chop(r) == r
  {
    if Tag(r) { TagIsPlain(r); }
  }

  lemma StripChops(t: string)
    requires Unspaced(t)
    ensures Strip(t) == t && Strip(t + "\n") == t
  {
    var s := t + "\n";
    assert StripLeft(s) == s;
    assert s[..|s| - 1] == t;
  }

  /** Normalizing twice removes at most a final line feed that the pattern let
      through; a locale that is not refused once is not refused again. */
  lemma NormalizeTwice(c: Case, value: string)
    requires Unicode(c)
    ensures Normalize(c, Normalize(c, value)) == Chop(Normalize(c, value))
    ensures Normalize(c, value) != "" ==> Normalize(c, Normalize(c, value)) != "" && Strip(Normalize(c, value)) != ""
  {
    var r := Normalize(c, value);
    if r != "" {
      ResultIsInCase(c, value);
      TagIsPlain(Chop(r));
      StripsToChopped(r);
      InCaseIsFixed(c, r, Chop(r));
    }
  }

  lemma StripsToChopped(r: string)
    requires Unspaced(Chop(r)) && Chop(r) != ""
    ensures Strip(r) == Chop(r)
  {
    StripChops(Chop(r));
    assert r == Chop(r) || r == Chop(r) + "\n";
  }

  lemma {:induction false} JoinFeeds(parts: seq<string>)
    requires |parts| > 0
    ensures Feeds(Join(parts)) <==> Feeds(parts[|parts| - 1])
  {
    if |parts| > 1 {
      JoinFeeds(parts[1..]);
      var rest := Join(parts[1..]);
      var joined := parts[0] + "-" + rest;
      assert rest != "" ==> joined[|joined| - 1] == rest[|rest| - 1];
    }
  }

  /** Letter case neither adds nor removes a final line feed. */
  lemma CasedFeeds(c: Case, w: string)
    requires Unicode(c)
    ensures Feeds(Cased(c, w)) <==> Feeds(w)
  {
    var parts := Split(w);
    JoinSplit(w);
    JoinFeeds(parts);
    if |parts| >= 2 { JoinFeeds([c.lower(parts[0]), c.upper(parts[1])] + parts[2..]); }
  }

  /** So normalization is not idempotent exactly on the values whose name ends in
      a line feed and is a tag without it, */
  lemma IdempotentIff(c: Case, value: string)
    requires Unicode(c)
    ensures Normalize(c, Normalize(c, value)) != Normalize(c, value)
      <==> Feeds(Named(value)) && !Unnamed(c, Strip(value)) && Tag(Chop(Cased(c, Named(value))))
  {
    NormalizeTwice(c, value);
    CasedFeeds(c, Named(value));
    TagEnds(Cased(c, Named(value)));
  }

  lemma TwoParts(a: string, b: string)
    requires '-' !in a && '-' !in b
    ensures Split(a + "-" + b) == [a, b] && Join([a, b]) == a + "-" + b
  {
    SplitOfPrefix(a, b);
    SplitOfPlain(b);
    assert [a, b][1..] == [b];
  }

  lemma FeedValue(v: string)
    requires v == "en_US\n" + "." + "UTF-8"
    ensures Strip(v) == v && Named(v) == "en" + "-" + "US\n"
  {
    assert Unspaced(v);
    BeforeAbsent(v, '@');
    BeforeFound("en_US\n", '.', "UTF-8");
    assert Hyphens("en_US\n") == "en" + "-" + "US\n";
  }

  lemma FeedCase(c: Case)
    requires Unicode(c)
    ensures c.lower("en") == "en" && c.upper("US\n") == "US\n"
  {
    assert Lower("en") == "en" && Upper("US\n") == "US\n";
  }

  lemma FeedNamed(c: Case, v: string)
    requires Unicode(c) && Ascii(v) && v != "" && v[0] == 'e'
    ensures !Unnamed(c, v)
  {
    assert c.upper(v)[0] == 'E';
  }

  /** and this value yields such a result. */
  lemma LineFeedSurvives(c: Case, v: string)
    requires Unicode(c) && v == "en_US\n" + "." + "UTF-8"
    ensures Normalize(c, v) == "en" + "-" + "US\n"
  {
    FeedValue(v);
    FeedCase(c);
    FeedNamed(c, v);
    TwoParts("en", "US\n");
    TwoParts("en", "US");
    var w := "en" + "-" + "US\n";
    assert Chop(w) == "en" + "-" + "US";
    assert [c.lower("en"), c.upper("US\n")] + Split(w)[2..] == ["en", "US\n"];
  }

  /** The locales that name no language yield none. */
  lemma NoLanguage(c: Case, v: string)
    requires Unicode(c) && Ascii(Strip(v))
    requires var name := Upper(Strip(v));
      name == "" || name == "C" || name == "POSIX" || name == "C.UTF-8" || name == "C.UTF8"
    ensures Normalize(c, v) == ""
  {
  }

  ghost predicate Letters(s: string, n: nat) {
    |s| == n && forall x :: x in s ==> Letter(x)
  }

  /** A language, its region and an encoding, in any case and with either mark
      between them, yield the tag in normal case. */
  lemma RegionalName(c: Case, language: string, mark: string, region: string, encoding: string)
    requires Unicode(c) && Letters(language, 2) && Letters(region, 2) && (mark == "_" || mark == "-")
    requires encoding != "" && forall x :: x in encoding ==> Alnum(x)
    ensures Normalize(c, language + mark + region + "." + encoding) == Lower(language) + "-" + Upper(region)
  {
    var front := language + mark + region;
    var v := front + "." + encoding;
    RegionalFront(language, mark, region);
    RegionalValue(front, encoding);
    RegionalCase(c, language, region);
    TwoParts(language, region);
    TwoParts(Lower(language), Upper(region));
    assert [c.lower(language), c.upper(region)] + Split(language + "-" + region)[2..]
        == [Lower(language), Upper(region)];
    RegionalTag(Lower(language), Upper(region));
    RegionalNamed(c, v);
  }

  lemma RegionalFront(language: string, mark: string, region: string)
    requires Letters(language, 2) && Letters(region, 2) && (mark == "_" || mark == "-")
    ensures var front := language + mark + region;
      && Hyphens(front) == language + "-" + region && Ascii(front) && '@' !in front && '.' !in front
      && |front| == 5 && Letter(front[0]) && Letter(front[1])
  {
    assert language[0] in language && language[1] in language && region[0] in region && region[1] in region;
    assert Hyphens(language + mark + region) == language + "-" + region;
  }

  lemma RegionalValue(front: string, encoding: string)
    requires |front| == 5 && Ascii(front) && '@' !in front && '.' !in front && Letter(front[0])
    requires encoding != "" && forall x :: x in encoding ==> Alnum(x)
    ensures var v := front + "." + encoding;
      Ascii(v) && |v| >= 7 && v[0] == front[0] && v[1] == front[1] && Strip(v) == v && Named(v) == Hyphens(front)
  {
    var v := front + "." + encoding;
    assert v[|v| - 1] == encoding[|encoding| - 1] && encoding[|encoding| - 1] in encoding;
    UnspacedStays(v);
    assert forall x :: x in v ==> x in front || x == '.' || x in encoding;
    BeforeAbsent(v, '@');
    BeforeFound(front, '.', encoding);
  }

  lemma RegionalCase(c: Case, language: string, region: string)
    requires Unicode(c) && Letters(language, 2) && Letters(region, 2)
    ensures c.lower(language) == Lower(language) && c.upper(region) == Upper(region)
    ensures '-' !in language && '-' !in region && '-' !in Lower(language) && '-' !in Upper(region)
  {
  }

  lemma RegionalTag(language: string, region: string)
    requires Letters(language, 2) && Letters(region, 2) && Split(language + "-" + region) == [language, region]
    ensures Tag(language + "-" + region)
  {
  }

  lemma RegionalNamed(c: Case, v: string)
    requires Unicode(c) && Ascii(v) && |v| >= 7 && Letter(v[0]) && Letter(v[1])
    ensures !Unnamed(c, v)
  {
    var u := c.upper(v);
    assert u == Upper(v) && |u| == |v| && UpperLetter(u[1]);
  }
}
