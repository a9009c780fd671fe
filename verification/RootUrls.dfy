/** The file names of published roots and the URLs a client computes for them
    (cmd/rufus-channel-admin/main.go, internal/acquisition/channel.go). */
module RootUrls {
  import opened Base
  import Publication

  // ------------------------------------------------------------- file names

  const TOKEN := "{version}"
  const SUFFIX := ".root.json"

  function RootName(version: nat): string {
    Decimal(version) + ".root.json"
  }

  lemma RootNameDetermines(v: nat, w: nat)
    requires RootName(v) == RootName(w)
    ensures v == w
  {
    assert RootName(v)[..|RootName(v)| - 10] == Decimal(v);
    assert RootName(w)[..|RootName(w)| - 10] == Decimal(w);
    DecimalReadsBack(v);
    DecimalReadsBack(w);
  }

  lemma RootNameIsPlain(v: nat)
    ensures '0' <= RootName(v)[0] <= '9' && Publication.PlainName(RootName(v))
  {
    DecimalReadsBack(v);
    assert RootName(v)[0] == Decimal(v)[0] && Decimal(v)[0] in Decimal(v);
    forall c | c in RootName(v) ensures c != '/' && c != '\\' {
      assert c in Decimal(v) || c in ".root.json";
    }
  }

  function StripSlashes(s: string): (r: string)
    ensures r <= s && (forall i :: |r| <= i < |s| ==> s[i] == '/') && (r == "" || r[|r| - 1] != '/')
  {
    if s == "" then ""
    else if s[|s| - 1] == '/' then StripSlashes(s[..|s| - 1])
    else s
  }

  function AfterSlash(s: string): (r: string)
    ensures |r| <= |s| && s[|s| - |r|..] == r && '/' !in r && (|r| == |s| || s[|s| - |r| - 1] == '/')
  {
    if s == "" || s[|s| - 1] == '/' then "" else AfterSlash(s[..|s| - 1]) + [s[|s| - 1]]
  }

  /** `filepath.Base`. */
  function BaseName(path: string): string {
    if path == "" then "."
    else if StripSlashes(path) == "" then "/"
    else AfterSlash(StripSlashes(path))
  }

  lemma {:induction false} StripsTo(path: string, slashes: string)
    requires path != "" && path[|path| - 1] != '/' && forall c :: c in slashes ==> c == '/'
    ensures StripSlashes(path + slashes) == path
    decreases |slashes|
  {
    if slashes == "" {
      assert path + slashes == path;
    } else {
      var n := |slashes| - 1;
      assert slashes[n] in slashes && forall c :: c in slashes[..n] ==> c in slashes;
      assert (path + slashes)[..|path| + n] == path + slashes[..n];
      StripsTo(path, slashes[..n]);
    }
  }

  lemma {:induction false} NameAfterSlash(directory: string, name: string)
    requires (directory == "" || directory[|directory| - 1] == '/') && '/' !in name
    ensures AfterSlash(directory + name) == name
    decreases |name|
  {
    if name == "" {
      assert directory + name == directory;
    } else {
      var n := |name| - 1;
      assert name[n] in name;
      assert (directory + name)[..|directory| + n] == directory + name[..n];
      NameAfterSlash(directory, name[..n]);
    }
  }

  /** The last element is the one between the last slash and trailing slashes. */
  lemma BaseIs(directory: string, name: string, slashes: string)
    requires directory == "" || directory[|directory| - 1] == '/'
    requires name != "" && '/' !in name && forall c :: c in slashes ==> c == '/'
    ensures BaseName(directory + name + slashes) == name
  {
    var path := directory + name;
    assert path[|path| - 1] == name[|name| - 1] && name[|name| - 1] in name;
    StripsTo(path, slashes);
    NameAfterSlash(directory, name);
  }

  /** and every path has that form. */
  lemma BaseParts(path: string, name: string) returns (directory: string, slashes: string)
    requires BaseName(path) == name && |name| > 1
    ensures path == directory + name + slashes && (directory == "" || directory[|directory| - 1] == '/')
    ensures forall c :: c in slashes ==> c == '/'
  {
    var stripped := StripSlashes(path);
    directory, slashes := stripped[..|stripped| - |name|], path[|stripped|..];
    assert stripped == directory + name && path == stripped + slashes;
  }

  // ------------------------------------------------------ escapes in a path

  function HexValue(c: char): Option<nat> {
    if '0' <= c <= '9' then Some(c as int - '0' as int)
    else if 'a' <= c <= 'f' then Some(c as int - 'a' as int + 10)
    else if 'A' <= c <= 'F' then Some(c as int - 'A' as int + 10)
    else None
  }

  /** `url.Parse` of a path: each escape stands for an octet, and a path with a
      malformed one is refused. */
  function Unescape(s: string): Option<string> {
    if s == "" then Some("")
    else if s[0] != '%' then Prepend(s[0], Unescape(s[1..]))
    else if |s| < 3 || HexValue(s[1]).None? || HexValue(s[2]).None? then None
    else Prepend(Octet(HexValue(s[1]).value, HexValue(s[2]).value), Unescape(s[3..]))
  }

  function Octet(high: nat, low: nat): char {
    ((high * 16 + low) % 256) as char
  }

  function Prepend(c: char, rest: Option<string>): Option<string> {
    if rest.None? then None else Some([c] + rest.value)
  }

  lemma {:induction false} UnescapePlain(s: string)
    requires '%' !in s
    ensures Unescape(s) == Some(s)
  {
    if s == "" {
    } else {
      assert s == [s[0]] + s[1..];
      UnescapePlain(s[1..]);
    }
  }

  lemma {:induction false} UnescapeJoins(a: string, b: string)
    requires Unescape(a).Some? && Unescape(b).Some?
    ensures Unescape(a + b) == Some(Unescape(a).value + Unescape(b).value)
  {
    if a == "" {
      assert a + b == b && Unescape(a).value + Unescape(b).value == Unescape(b).value;
    } else {
      var n := if a[0] != '%' then 1 else 3;
      assert (a + b)[n..] == a[n..] + b;
      UnescapeJoins(a[n..], b);
      PrependJoins(if n == 1 then a[0] else Octet(HexValue(a[1]).value, HexValue(a[2]).value), Unescape(a[n..]).value,
              Unescape(b).value);
    }
  }

  lemma PrependJoins(c: char, rest: string, more: string)
    ensures [c] + (rest + more) == ([c] + rest) + more
  {
  }

  /** No escape reaches across a character that is no hexadecimal digit. */
  lemma {:induction false} UnescapeSplits(a: string, b: string)
    requires Unescape(a + b).Some? && b != "" && HexValue(b[0]).None?
    ensures Unescape(a).Some? && Unescape(b).Some?
  {
    if a == "" {
      assert a + b == b;
    } else {
      var n := if a[0] != '%' then 1 else 3;
      assert |a| == 1 || |a| == 2 ==> (a + b)[|a|] == b[0];
      assert (a + b)[n..] == a[n..] + b;
      UnescapeSplits(a[n..], b);
    }
  }

  lemma {:induction false} UnescapeTail(a: string, b: string)
    requires '%' !in a && Unescape(a + b).Some?
    ensures Unescape(b).Some?
  {
    if a == "" {
      assert a + b == b;
    } else {
      assert (a + b)[0] == a[0] && (a + b)[1..] == a[1..] + b;
      UnescapeTail(a[1..], b);
    }
  }

  lemma UnescapeAround(a: string, text: string, b: string)
    requires Unescape(a).Some? && '%' !in text && Unescape(b).Some?
    ensures Unescape(a + text + b) == Some(Unescape(a).value + text + Unescape(b).value)
  {
    UnescapePlain(text);
    UnescapeJoins(a, text);
    UnescapeJoins(a + text, b);
  }

  /** Plain text that starts with no hexadecimal digit is read as it stands, and
      any plain text in its place is. */
  lemma UnescapeParts(a: string, text: string, b: string)
    requires text != "" && HexValue(text[0]).None? && '%' !in text && Unescape(a + text + b).Some?
    ensures Unescape(a).Some? && Unescape(b).Some?
  {
    assert a + text + b == a + (text + b);
    UnescapeSplits(a, text + b);
    UnescapeTail(text, b);
  }

  // ----------------------------------------------------------- root URLs

  predicate TokenAt(s: string, token: string, i: nat) {
    i + |token| <= |s| && forall k {:trigger token[k]} :: 0 <= k < |token| ==> s[i + k] == token[k]
  }

  function FirstToken(s: string, token: string, from: nat): (i: nat)
    requires from <= |s|
    ensures from <= i <= |s| && (i < |s| ==> TokenAt(s, token, i))
    ensures forall j :: from <= j < i ==> !TokenAt(s, token, j)
    decreases |s| - from
  {
    if from == |s| || TokenAt(s, token, from) then from else FirstToken(s, token, from + 1)
  }

  /** `strings.Contains`. */
  predicate HasToken(s: string, token: string) {
    FirstToken(s, token, 0) < |s|
  }

  function BeforeToken(s: string, token: string): string {
    s[..FirstToken(s, token, 0)]
  }

  function AfterToken(s: string, token: string): string {
    if HasToken(s, token) then s[FirstToken(s, token, 0) + |token|..] else ""
  }

  /** `strings.Replace` of the first occurrence. */
  function Substitute(s: string, token: string, text: string): string {
    if HasToken(s, token) then BeforeToken(s, token) + text + AfterToken(s, token) else s
  }

  /** A raw path accepted as template for the published layout: its text holds
      the token once, and its base is right once the escapes are read. */
  predicate TemplateOk(raw: string) {
    && HasToken(raw, TOKEN) && !HasToken(AfterToken(raw, TOKEN), TOKEN)
    && Unescape(raw).Some? && BaseName(Unescape(raw).value) == TOKEN + SUFFIX
  }

  /** No escaped token stands behind the one as written. */
  predicate TokenIsLast(raw: string) {
    var rest := Unescape(AfterToken(raw, TOKEN));
    rest.Some? && !HasToken(rest.value, TOKEN)
  }

  /** The file a client asks for: the base of the path of the substituted URL. */
  function Requested(raw: string, version: nat): Option<string> {
    var path := Unescape(Substitute(raw, TOKEN, Decimal(version)));
    if path.None? then None else Some(BaseName(path.value))
  }

  /** What the proofs need of a token: a brace opens it and nothing else in it is
      one, and it holds no escape. */
  ghost predicate Opens(token: string) {
    && |token| > 1 && (forall k :: 0 <= k < |token| ==> (token[k] == '{' <==> k == 0))
    && '%' !in token && token[|token| - 1] != '/'
  }

  lemma NoBrace(s: string, token: string)
    requires Opens(token) && '{' !in s
    ensures !HasToken(s, token)
  {
    if i: nat :| TokenAt(s, token, i) {
      TokenReads(s, token, i, 0);
      assert false;
    }
  }

  lemma TokenReads(s: string, token: string, i: nat, k: nat)
    requires TokenAt(s, token, i) && k < |token|
    ensures s[i + k] == token[k]
  {
  }

  /** Inside a token there is no brace. */
  lemma BraceOpens(s: string, token: string, i: nat, j: nat)
    requires Opens(token) && TokenAt(s, token, i) && j < |s| && s[j] == '{'
    ensures !(i < j < i + |token|)
  {
    if i < j < i + |token| { TokenReads(s, token, i, j - i); }
  }

  lemma TokenHere(a: string, token: string, b: string)
    requires token != ""
    ensures TokenAt(a + token + b, token, |a|) && HasToken(a + token + b, token)
  {
    var s := a + token + b;
    assert s[|a|..|a| + |token|] == token;
    assert TokenAt(s, token, |a|);
  }

  /** A template is read before and after a text is put in. */
  lemma TemplateReads(raw: string, token: string, text: string) returns (a: string, b: string)
    requires Opens(token) && HasToken(raw, token) && Unescape(raw).Some? && '%' !in text
    ensures Unescape(AfterToken(raw, token)) == Some(b) && Unescape(raw) == Some(a + token + b)
    ensures Unescape(Substitute(raw, token, text)) == Some(a + text + b)
  {
    var before, after := BeforeToken(raw, token), AfterToken(raw, token);
    assert raw == before + token + after;
    UnescapeParts(before, token, after);
    a, b := Unescape(before).value, Unescape(after).value;
    UnescapeAround(before, token, after);
    UnescapeAround(before, text, after);
  }

  /** Two readings of one text. */
  lemma Cut(a: string, b: string, c: string, d: string) returns (between: string)
    requires a + b == c + d && |a| <= |c|
    ensures c == a + between && b == between + d
  {
    var whole := a + b;
    between := c[|a|..];
    assert a == whole[..|c|][..|a|] && c == whole[..|c|];
    assert b == whole[|a|..] && d == whole[|c|..];
  }

  /** Of two tokens, the one in the base comes last. */
  lemma TokensApart(path: string, token: string, i: nat, j: nat)
    requires Opens(token) && TokenAt(path, token, i) && TokenAt(path, token, j) && i != j
    requires (j == 0 || path[j - 1] == '/') && forall k :: j + |token| <= k < |path| ==> path[k] != '{'
    ensures i + |token| < j
  {
    TokenReads(path, token, i, 0);
    TokenReads(path, token, j, 0);
    TokenReads(path, token, i, |token| - 1);
    BraceOpens(path, token, i, j);
    BraceOpens(path, token, j, i);
  }

  /** A token is the one that opens the base, or stands before it. */
  lemma TokenPlace(a: string, token: string, b: string, directory: string, rest: string)
    requires Opens(token) && a + token + b == directory + token + rest && '{' !in rest
    requires directory == "" || directory[|directory| - 1] == '/'
    ensures |a| == |directory| || |a + token| < |directory|
  {
    var path := a + token + b;
    TokenHere(a, token, b);
    TokenHere(directory, token, rest);
    forall k | |directory + token| <= k < |path| ensures path[k] != '{' {
      assert path[k] == rest[k - |directory + token|];
    }
    if |a| != |directory| { TokensApart(path, token, |a|, |directory|); }
  }

  /** The token taken out opens the base, */
  lemma TakenFromBase(a: string, token: string, b: string, suffix: string, slashes: string, text: string)
    requires b == suffix + slashes && (a == "" || a[|a| - 1] == '/')
    requires '/' !in text + suffix && text + suffix != "" && forall c :: c in slashes ==> c == '/'
    ensures BaseName(a + text + b) == text + suffix
  {
    assert a + text + b == a + (text + suffix) + slashes;
    BaseIs(a, text + suffix, slashes);
  }

  /** or it stands before the base. */
  lemma TakenBefore(front: string, between: string, token: string, suffix: string, slashes: string)
    requires '/' !in token + suffix && token + suffix != "" && between != "" && between[|between| - 1] == '/'
    requires token != "" && forall c :: c in slashes ==> c == '/'
    ensures var b := between + (token + suffix + slashes);
      HasToken(b, token) && BaseName(front + b) == token + suffix
  {
    TokenHere(between, token, suffix + slashes);
    assert between + (token + suffix + slashes) == between + token + (suffix + slashes);
    assert front + (between + (token + suffix + slashes)) == front + between + (token + suffix) + slashes;
    BaseIs(front + between, token + suffix, slashes);
  }

  /** The base after a substitution. */
  lemma BaseAfter(a: string, token: string, b: string, suffix: string, text: string)
    requires Opens(token) && '{' !in suffix && '/' !in token + suffix && '/' !in text + suffix && text + suffix != ""
    requires BaseName(a + token + b) == token + suffix
    ensures BaseName(a + text + b) == if HasToken(b, token) then token + suffix else text + suffix
  {
    var directory, slashes := BaseParts(a + token + b, token + suffix);
    var rest := suffix + slashes;
    Regrouped(directory, token, suffix, slashes);
    TokenPlace(a, token, b, directory, rest);
    if |a| == |directory| {
      CutToken(a, token, b, directory, rest);
      NoBrace(b, token);
      TakenFromBase(a, token, b, suffix, slashes, text);
    } else {
      var between := Cut(a + token, b, directory, token + suffix + slashes);
      assert directory[|directory| - 1] == between[|between| - 1];
      TakenBefore(a + text, between, token, suffix, slashes);
    }
  }

  lemma Regrouped(directory: string, token: string, suffix: string, slashes: string)
    ensures directory + (token + suffix) + slashes == directory + token + (suffix + slashes)
    ensures directory + (token + suffix) + slashes == directory + (token + suffix + slashes)
  {
  }

  lemma CutToken(a: string, token: string, b: string, directory: string, rest: string)
    requires a + token + b == directory + token + rest && |a| == |directory|
    ensures a == directory && b == rest
  {
    var path := a + token + b;
    assert a == path[..|a|] == directory && b == path[|a + token|..] == rest;
  }

  lemma NamedBy(raw: string, token: string, suffix: string, text: string)
    requires Opens(token) && '{' !in suffix && '/' !in token + suffix && '/' !in text + suffix && '%' !in text
    requires text + suffix != ""
    requires HasToken(raw, token) && Unescape(raw).Some? && BaseName(Unescape(raw).value) == token + suffix
    ensures Unescape(AfterToken(raw, token)).Some? && Unescape(Substitute(raw, token, text)).Some?
    ensures BaseName(Unescape(Substitute(raw, token, text)).value)
         == if HasToken(Unescape(AfterToken(raw, token)).value, token) then token + suffix else text + suffix
  {
    var a, b := TemplateReads(raw, token, text);
    BaseAfter(a, token, b, suffix, text);
  }

  /** The URL a client computes names the file of its version exactly if no
      escaped token follows the one as written; otherwise every version's URL
      names the same file. */
  lemma TemplateNamesFile(raw: string, version: nat)
    requires TemplateOk(raw)
    ensures Requested(raw, version) == Some(if TokenIsLast(raw) then RootName(version) else TOKEN + SUFFIX)
  {
    TokenOpens();
    DecimalReadsBack(version);
    NamedBy(raw, TOKEN, SUFFIX, Decimal(version));
  }

  lemma TokenOpens()
    ensures Opens(TOKEN) && '{' !in SUFFIX && '/' !in TOKEN + SUFFIX && SUFFIX != ""
  {
  }

  /** A template that starts with its token. */
  lemma StartsWithToken(token: string, after: string, b: string)
    requires Opens(token) && '{' !in after && Unescape(after) == Some(b)
    ensures HasToken(token + after, token) && AfterToken(token + after, token) == after
    ensures !HasToken(after, token) && Unescape(token + after) == Some(token + b)
  {
    var raw := token + after;
    assert "" + token + after == raw && "" + token + b == token + b;
    TokenHere("", token, after);
    assert FirstToken(raw, token, 0) == 0 && raw[|token|..] == after;
    NoBrace(after, token);
    UnescapeAround("", token, after);
  }

  const ESCAPED := "/" + "%7B" + ("version" + "%7D" + SUFFIX)

  /** There are templates of either kind: the second token may be written with
      escapes. */
  lemma EscapedToken()
    ensures TemplateOk(TOKEN + ESCAPED) && !TokenIsLast(TOKEN + ESCAPED)
  {
    EscapedSecond("/", "%7B", "version", "%7D", SUFFIX, TOKEN);
  }

  lemma PlainTemplate()
    ensures TemplateOk(TOKEN + SUFFIX) && TokenIsLast(TOKEN + SUFFIX)
  {
    OnlyToken(TOKEN, SUFFIX);
  }

  lemma OnlyToken(token: string, suffix: string)
    requires Opens(token) && '{' !in suffix && '%' !in suffix && '/' !in token + suffix
    ensures HasToken(token + suffix, token) && AfterToken(token + suffix, token) == suffix && !HasToken(suffix, token)
    ensures Unescape(token + suffix) == Some(token + suffix) && BaseName(token + suffix) == token + suffix
    ensures Unescape(suffix) == Some(suffix)
  {
    UnescapePlain(suffix);
    StartsWithToken(token, suffix, suffix);
    BaseWithout("", token + suffix);
    assert "" + (token + suffix) == token + suffix;
  }

  lemma EscapedSecond(a: string, e: string, b: string, f: string, suffix: string, token: string)
    requires '%' !in a + b + suffix && IsEscape(e) && IsEscape(f) && '{' !in a + e + (b + f + suffix)
    requires Opens(token) && a == "/" && token == [Escaped(e)] + b + [Escaped(f)] && '/' !in token + suffix
    ensures var after := a + e + (b + f + suffix);
      && HasToken(token + after, token) && AfterToken(token + after, token) == after && !HasToken(after, token)
      && Unescape(token + after).Some? && BaseName(Unescape(token + after).value) == token + suffix
      && Unescape(after).Some? && HasToken(Unescape(after).value, token)
  {
    EscapedReads(a, e, b, f, suffix);
    Regroup(a, [Escaped(e)], b, [Escaped(f)], suffix);
    SecondToken(a + e + (b + f + suffix), token, suffix, a + [Escaped(e)] + (b + [Escaped(f)] + suffix));
  }

  lemma Regroup(a: string, x: string, b: string, y: string, c: string)
    ensures a + x + (b + y + c) == a + (x + b + y) + c
  {
  }

  lemma SecondToken(after: string, token: string, suffix: string, read: string)
    requires Opens(token) && '{' !in after && Unescape(after) == Some(read) && '/' !in token + suffix
    requires read == "/" + token + suffix
    ensures HasToken(token + after, token) && AfterToken(token + after, token) == after && !HasToken(after, token)
    ensures Unescape(token + after) == Some(token + read) && HasToken(read, token)
    ensures BaseName(token + read) == token + suffix
  {
    StartsWithToken(token, after, read);
    TokenHere("/", token, suffix);
    Associative("/", token, suffix);
    Associative(token, "/", token + suffix);
    BaseWithout(token + "/", token + suffix);
  }

  lemma Associative(a: string, b: string, c: string)
    ensures a + (b + c) == (a + b) + c
  {
  }

  lemma BaseWithout(directory: string, name: string)
    requires directory == "" || directory[|directory| - 1] == '/'
    requires name != "" && '/' !in name
    ensures BaseName(directory + name) == name
  {
    assert directory + name + "" == directory + name;
    BaseIs(directory, name, "");
  }

  lemma EscapedReads(a: string, e: string, b: string, f: string, c: string)
    requires '%' !in a + b + c && IsEscape(e) && IsEscape(f)
    ensures Unescape(a + e + (b + f + c)) == Some(a + [Escaped(e)] + (b + [Escaped(f)] + c))
  {
    EscapedAround(b, f, c);
    UnescapePlain(a);
    EscapeReads(e);
    UnescapeJoins(a, e);
    UnescapeJoins(a + e, b + f + c);
  }

  lemma EscapedAround(b: string, f: string, c: string)
    requires '%' !in b + c && IsEscape(f)
    ensures Unescape(b + f + c) == Some(b + [Escaped(f)] + c)
  {
    UnescapePlain(b);
    EscapeReads(f);
    UnescapePlain(c);
    UnescapeJoins(b, f);
    UnescapeJoins(b + f, c);
  }

  predicate IsEscape(e: string) {
    |e| == 3 && e[0] == '%' && HexValue(e[1]).Some? && HexValue(e[2]).Some?
  }

  function Escaped(e: string): char
    requires IsEscape(e)
  {
    Octet(HexValue(e[1]).value, HexValue(e[2]).value)
  }

  lemma EscapeReads(e: string)
    requires IsEscape(e)
    ensures Unescape(e) == Some([Escaped(e)])
  {
    assert e[3..] == "" && [Escaped(e)] + "" == [Escaped(e)];
  }
}
