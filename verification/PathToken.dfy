/**
 `@path` tokens in composer text: how a path is inserted, and how the token at the caret is found.
 */
module PathToken {
  import opened Wrappers

  datatype Token = Token(start: nat, end: nat, path: string, parent: string, query: string, quoted: bool)

  /** White space as regular expressions have it. */
  predicate White(c: char) {
    var u := c as int;
    || 9 <= u <= 13 || u == 32 || u == 160 || u == 0x1680 || 0x2000 <= u <= 0x200A
    || u == 0x2028 || u == 0x2029 || u == 0x202F || u == 0x205F || u == 0x3000 || u == 0xFEFF
  }

  predicate Break(c: char) {
    c == '\r' || c == '\n'
  }

  predicate Forbidden(c: char) {
    c == '\\' || c == '"' || (c as int) < 32 || (c as int) == 127
  }

  function Split(s: string): (parts: seq<string>)
    ensures parts != []
  {
    if s == "" then [""]
    else if s[0] == '/' then [""] + Split(s[1..])
    else
      var rest := Split(s[1..]);
      [[s[0]] + rest[0]] + rest[1..]
  }

  predicate SafePart(part: string) {
    part != "" && part != "." && part != ".."
  }

  predicate AllSafe(parts: seq<string>) {
    forall i :: 0 <= i < |parts| ==> SafePart(parts[i])
  }

  function Trimmed(path: string, trailing: bool): string {
    if trailing && path != "" && path[|path| - 1] == '/' then path[..|path| - 1] else path
  }

  predicate Clean(path: string) {
    forall i :: 0 <= i < |path| ==> !Forbidden(path[i])
  }

  predicate SafeRelativePath(path: string, trailing: bool) {
    && Clean(path) && !(path != "" && path[0] == '/')
    && var value := Trimmed(path, trailing);
    && (value == "" || AllSafe(Split(value)))
  }

  // ----- Finding the token

  predicate Trigger(text: string, at: nat) {
    at < |text| && text[at] == '@' && (at == 0 || White(text[at - 1]))
  }

  predicate QuotedAt(text: string, at: nat) {
    at + 1 < |text| && text[at + 1] == '"'
  }

  function ContentStart(text: string, at: nat): nat {
    at + if QuotedAt(text, at) then 2 else 1
  }

  predicate Ends(text: string, i: nat, quoted: bool)
    requires i < |text|
  {
    if quoted then text[i] == '"' || Break(text[i]) else White(text[i])
  }

  function ContentEnd(text: string, i: nat, quoted: bool): (end: nat)
    requires i <= |text|
    ensures i <= end <= |text|
    ensures forall k :: i <= k < end ==> !Ends(text, k, quoted)
    ensures end < |text| ==> Ends(text, end, quoted)
    decreases |text| - i
  {
    if i == |text| || Ends(text, i, quoted) then i else ContentEnd(text, i + 1, quoted)
  }

  function LastSlash(path: string): (n: int)
    ensures -1 <= n < |path| && (n >= 0 ==> path[n] == '/')
    ensures forall k :: n < k < |path| ==> path[k] != '/'
  {
    if path == "" then -1 else if path[|path| - 1] == '/' then |path| - 1 else LastSlash(path[..|path| - 1])
  }

  function TokenOf(start: nat, end: nat, path: string, quoted: bool): Token {
    var slash := LastSlash(path);
    Token(start, end, path, if slash < 0 then "" else path[..slash], path[slash + 1..], quoted)
  }

  /** The token that the trigger opens, if the caret is in it. */
  function Candidate(text: string, at: nat, caret: nat): Option<Token>
    requires at < caret <= |text|
  {
    var quoted, from := QuotedAt(text, at), ContentStart(text, at);
    if caret < from then None
    else
      var to := ContentEnd(text, from, quoted);
      var end := to + if quoted && to < |text| && text[to] == '"' then 1 else 0;
      if caret > end || (caret > to && !quoted) then None
      else
        var path := text[from..if caret < to then caret else to];
        if SafeRelativePath(path, true) && SafeRelativePath(text[from..to], true)
        then Some(TokenOf(at, end, path, quoted)) else None
  }

  /** The last trigger before `n` whose token the caret is in. */
  function Last(text: string, caret: nat, n: nat): Option<Token>
    requires n <= caret <= |text|
  {
    if n == 0 then None
    else if Trigger(text, n - 1) && Candidate(text, n - 1, caret).Some? then Candidate(text, n - 1, caret)
    else Last(text, caret, n - 1)
  }

  function Find(text: string, caret: nat): Option<Token>
    requires caret <= |text|
  {
    Last(text, caret, caret)
  }

  /** The scan of the composer, trigger by trigger. */
  method PathToken(text: string, start: nat, end: nat) returns (token: Option<Token>)
    requires start <= |text|
    ensures token == if start == end then Find(text, start) else None
  {
    hide SafeRelativePath, White, TokenOf;
    token := None;
    if start != end { return; }
    var at := 0;
    while at < |text| && at < start
      invariant at <= start && token == Last(text, start, at)
    {
      if Trigger(text, at) {
        var candidate := TokenAt(text, at, start);
        if candidate.Some? { token := candidate; }
      }
      at := at + 1;
    }
  }

  method TokenAt(text: string, at: nat, caret: nat) returns (token: Option<Token>)
    requires at < caret <= |text|
    ensures token == Candidate(text, at, caret)
  {
    hide SafeRelativePath, White, TokenOf;
    var quoted := at + 1 < |text| && text[at + 1] == '"';
    var contentStart := at + if quoted then 2 else 1;
    if caret < contentStart { return None; }
    var contentEnd := contentStart;
    while contentEnd < |text| && !Ends(text, contentEnd, quoted)
      invariant contentStart <= contentEnd <= |text|
      invariant ContentEnd(text, contentStart, quoted) == ContentEnd(text, contentEnd, quoted)
    {
      contentEnd := contentEnd + 1;
    }
    var tokenEnd := contentEnd + if quoted && contentEnd < |text| && text[contentEnd] == '"' then 1 else 0;
    if caret > tokenEnd || (caret > contentEnd && !quoted) { return None; }
    var path := text[contentStart..if caret < contentEnd then caret else contentEnd];
    if !SafeRelativePath(path, true) || !SafeRelativePath(text[contentStart..contentEnd], true) { return None; }
    token := Some(TokenOf(at, tokenEnd, path, quoted));
  }

  // ----- Inserting a path

  function Value(path: string, directory: bool): string {
    path + if directory then "/" else ""
  }

  predicate NeedsQuotes(path: string, directory: bool, quoted: bool) {
    quoted || exists i :: 0 <= i < |Value(path, directory)| && White(Value(path, directory)[i])
  }

  function PathInsertion(path: string, directory: bool, quoted: bool): string {
    var value := Value(path, directory);
    if NeedsQuotes(path, directory, quoted) then "@\"" + value + "\"" else "@" + value
  }

  lemma {:induction false} SplitLast(s: string)
    requires s != "" && s[|s| - 1] == '/'
    ensures Split(s)[|Split(s)| - 1] == ""
  {
    if |s| > 1 { SplitLast(s[1..]); }
  }

  lemma ValueSafe(path: string, directory: bool)
    requires path != "" && SafeRelativePath(path, false)
    ensures SafeRelativePath(Value(path, directory), true)
  {
    if path[|path| - 1] == '/' { SplitLast(path); }
    var value := Value(path, directory);
    assert Trimmed(value, true) == path;
  }

  lemma {:induction false} ContentEndIs(text: string, i: nat, quoted: bool, end: nat)
    requires i <= end <= |text| && (forall k :: i <= k < end ==> !Ends(text, k, quoted))
    requires end < |text| ==> Ends(text, end, quoted)
    ensures ContentEnd(text, i, quoted) == end
    decreases end - i
  {
    if i < end { ContentEndIs(text, i + 1, quoted, end); }
  }

  lemma {:induction false} LastIs(text: string, caret: nat, at: nat, n: nat)
    requires at < n <= caret <= |text| && Trigger(text, at) && Candidate(text, at, caret).Some?
    requires forall k :: at < k < n && Trigger(text, k) ==> Candidate(text, k, caret).None?
    ensures Last(text, caret, n) == Candidate(text, at, caret)
    decreases n
  {
    hide Candidate, Trigger;
    if n - 1 > at { LastIs(text, caret, at, n - 1); }
  }

  /** Where the inserted content ends in the composed text. */
  function Caret(before: string, path: string, directory: bool, quoted: bool): nat {
    |before| + (if NeedsQuotes(path, directory, quoted) then 2 else 1) + |Value(path, directory)|
  }

  /** The token of an insertion. */
  function Inserted(before: string, path: string, directory: bool, quoted: bool): Token {
    TokenOf(|before|, |before| + |PathInsertion(path, directory, quoted)|, Value(path, directory), NeedsQuotes(path, directory, quoted))
  }

  lemma PlainText(before: string, path: string, directory: bool, after: string)
    requires path != "" && SafeRelativePath(path, false) && !NeedsQuotes(path, directory, false)
    requires before == "" || White(before[|before| - 1])
    requires after == "" || White(after[0])
    ensures
      var text := before + PathInsertion(path, directory, false) + after;
      var at, caret := |before|, Caret(before, path, directory, false);
      && at + 1 < caret <= |text| && text[at + 1..caret] == Value(path, directory)
      && Trigger(text, at) && !QuotedAt(text, at) && ContentEnd(text, at + 1, false) == caret
      && SafeRelativePath(Value(path, directory), true)
      && (forall k :: at < k < caret ==> !White(text[k]))
  {
    hide SafeRelativePath, White;
    var value := Value(path, directory);
    var text := before + PathInsertion(path, directory, false) + after;
    var at, caret := |before|, Caret(before, path, directory, false);
    ValueSafe(path, directory);
    SafeIsClean(value);
    assert text[at + 1..caret] == value;
    assert forall k :: at < k < caret ==> text[k] == value[k - at - 1];
    assert caret < |text| ==> text[caret] == after[0];
    assert at > 0 ==> text[at - 1] == before[at - 1];
    ContentEndIs(text, at + 1, false, caret);
  }

  lemma PlainRoundTrip(before: string, path: string, directory: bool, after: string)
    requires path != "" && SafeRelativePath(path, false) && !NeedsQuotes(path, directory, false)
    requires before == "" || White(before[|before| - 1])
    requires after == "" || White(after[0])
    ensures Find(before + PathInsertion(path, directory, false) + after, Caret(before, path, directory, false))
            == Some(Inserted(before, path, directory, false))
  {
    hide SafeRelativePath, TokenOf, White, NeedsQuotes, Last, PathInsertion, ContentEnd;
    var text := before + PathInsertion(path, directory, false) + after;
    var at, caret := |before|, Caret(before, path, directory, false);
    PlainText(before, path, directory, after);
    InsertionLength(before, path, directory, false);
    forall k | at < k < caret ensures !Trigger(text, k) {
      if k == at + 1 { NotWhite(text[at]); }
    }
    LastIs(text, caret, at, caret);
  }

  lemma InsertionLength(before: string, path: string, directory: bool, quoted: bool)
    ensures |before| + |PathInsertion(path, directory, quoted)|
            == Caret(before, path, directory, quoted) + if NeedsQuotes(path, directory, quoted) then 1 else 0
  {
  }

  lemma NotWhite(c: char)
    ensures c == '@' || c == '"' ==> !White(c)
  {
  }

  lemma SafeIsClean(path: string)
    requires SafeRelativePath(path, true)
    ensures forall i :: 0 <= i < |path| ==> path[i] != '"' && !Break(path[i])
  {
    forall i | 0 <= i < |path| ensures path[i] != '"' && !Break(path[i]) { assert !Forbidden(path[i]); }
  }

  lemma UnsafeQuote(path: string, i: nat)
    requires i < |path| && path[i] == '"'
    ensures !SafeRelativePath(path, true)
  {
    assert Forbidden(path[i]);
  }

  /** A trigger inside quoted content opens nothing: its token ends before the caret, or holds the closing
      quote, or begins behind it. */
  lemma InnerTrigger(text: string, at: nat, caret: nat, quote: nat)
    requires at < quote <= caret <= quote + 1 && caret <= |text| && quote < |text| && text[quote] == '"'
    requires at + 1 < quote || caret == quote
    requires at + 1 < quote ==> text[at + 1] != '"'
    ensures Candidate(text, at, caret).None?
  {
    hide SafeRelativePath, TokenOf, White;
    NotWhite('"');
    if at + 1 < quote {
      var to := ContentEnd(text, at + 1, false);
      if to > quote {
        assert text[at + 1..to][quote - at - 1] == '"';
        UnsafeQuote(text[at + 1..to], quote - at - 1);
      }
    }
  }

  lemma QuotedText(before: string, path: string, directory: bool, quoted: bool, after: string)
    requires path != "" && SafeRelativePath(path, false) && NeedsQuotes(path, directory, quoted)
    requires before == "" || White(before[|before| - 1])
    ensures
      var text := before + PathInsertion(path, directory, quoted) + after;
      var at, caret := |before|, Caret(before, path, directory, quoted);
      && caret < |text| && text[at] == '@' && text[at + 1] == '"' && text[caret] == '"'
      && text[at + 2..caret] == Value(path, directory)
      && Trigger(text, at) && ContentEnd(text, at + 2, true) == caret
      && (forall k :: at + 1 < k < caret ==> text[k] != '"')
      && SafeRelativePath(Value(path, directory), true)
      && text[caret + 1..] == after
  {
    hide SafeRelativePath, White, NeedsQuotes, Value, ContentEnd, Trigger;
    var value := Value(path, directory);
    var text := before + PathInsertion(path, directory, quoted) + after;
    ValueSafe(path, directory);
    SafeIsClean(value);
    assert text == before + ("@\"" + value + "\"") + after;
    QuotedLayout(before, value, after);
  }

  lemma QuotedLayout(before: string, value: string, after: string)
    requires before == "" || White(before[|before| - 1])
    requires forall i :: 0 <= i < |value| ==> value[i] != '"' && !Break(value[i])
    ensures
      var text := before + ("@\"" + value + "\"") + after;
      var at, caret := |before|, |before| + 2 + |value|;
      && caret < |text| && text[at] == '@' && text[at + 1] == '"' && text[caret] == '"'
      && text[at + 2..caret] == value
      && Trigger(text, at) && ContentEnd(text, at + 2, true) == caret
      && (forall k :: at + 1 < k < caret ==> text[k] != '"')
      && text[caret + 1..] == after
  {
    hide White, ContentEnd;
    var text := before + ("@\"" + value + "\"") + after;
    var at, caret := |before|, |before| + 2 + |value|;
    assert text[at + 2..caret] == value;
    assert forall k :: at + 1 < k < caret ==> text[k] == value[k - at - 2];
    assert at > 0 ==> text[at - 1] == before[at - 1];
    ContentEndIs(text, at + 2, true, caret);
  }

  /** The trigger of a quoted insertion, with the caret before or behind the closing quote. */
  lemma QuotedCandidate(before: string, path: string, directory: bool, quoted: bool, after: string, behind: bool)
    requires path != "" && SafeRelativePath(path, false) && NeedsQuotes(path, directory, quoted)
    requires before == "" || White(before[|before| - 1])
    ensures
      var text := before + PathInsertion(path, directory, quoted) + after;
      var caret := Caret(before, path, directory, quoted) + if behind then 1 else 0;
      && |before| < caret <= |text| && Trigger(text, |before|)
      && Candidate(text, |before|, caret) == Some(Inserted(before, path, directory, quoted))
  {
    hide SafeRelativePath, TokenOf, White, NeedsQuotes, PathInsertion, ContentEnd;
    QuotedText(before, path, directory, quoted, after);
    InsertionLength(before, path, directory, quoted);
  }

  lemma QuotedRoundTrip(before: string, path: string, directory: bool, quoted: bool, after: string)
    requires path != "" && SafeRelativePath(path, false) && NeedsQuotes(path, directory, quoted)
    requires before == "" || White(before[|before| - 1])
    ensures Find(before + PathInsertion(path, directory, quoted) + after, Caret(before, path, directory, quoted))
            == Some(Inserted(before, path, directory, quoted))
  {
    hide SafeRelativePath, TokenOf, White, NeedsQuotes, PathInsertion, ContentEnd, Candidate, Last, Inserted;
    var text := before + PathInsertion(path, directory, quoted) + after;
    var at, caret := |before|, Caret(before, path, directory, quoted);
    QuotedText(before, path, directory, quoted, after);
    QuotedCandidate(before, path, directory, quoted, after, false);
    forall k | at < k < caret && Trigger(text, k) ensures Candidate(text, k, caret).None? {
      assert k != at + 1;
      InnerTrigger(text, k, caret, caret);
    }
    LastIs(text, caret, at, caret);
  }

  /** Insert, then parse: for every safe path, after the start of the text or white space, with the caret at
      the end of what was inserted, the token found is the inserted one, whatever stands before it. What
      follows matters only to an unquoted path, which white space has to end. */
  lemma InsertThenParse(before: string, path: string, directory: bool, quoted: bool, after: string)
    requires path != "" && SafeRelativePath(path, false)
    requires before == "" || White(before[|before| - 1])
    requires NeedsQuotes(path, directory, quoted) || after == "" || White(after[0])
    ensures Find(before + PathInsertion(path, directory, quoted) + after, Caret(before, path, directory, quoted))
            == Some(Inserted(before, path, directory, quoted))
  {
    hide SafeRelativePath, Find, White;
    if NeedsQuotes(path, directory, quoted) { QuotedRoundTrip(before, path, directory, quoted, after); }
    else { PlainRoundTrip(before, path, directory, after); }
  }

  // ----- Behind the closing quote

  /** The path ends in what opens a token. */
  predicate EndsInTrigger(value: string) {
    |value| >= 2 && value[|value| - 1] == '@' && White(value[|value| - 2])
  }

  /** With the caret behind the closing quote the insertion is found too, unless the path ends in white
      space and an `@`: then that opens a quoted token of its own, if what follows is safe. */
  lemma BehindTheQuote(before: string, path: string, directory: bool, quoted: bool, after: string)
    requires path != "" && SafeRelativePath(path, false) && NeedsQuotes(path, directory, quoted)
    requires before == "" || White(before[|before| - 1])
    ensures
      var text := before + PathInsertion(path, directory, quoted) + after;
      var caret := Caret(before, path, directory, quoted) + 1;
      && caret <= |text|
      && (Find(text, caret) == Some(Inserted(before, path, directory, quoted)) <==>
            !(EndsInTrigger(Value(path, directory)) && SafeRelativePath(text[caret..ContentEnd(text, caret, true)], true)))
  {
    hide SafeRelativePath, White, NeedsQuotes, TokenOf, PathInsertion, ContentEnd, Candidate, Last, EndsInTrigger, Inserted;
    var value := Value(path, directory);
    var text := before + PathInsertion(path, directory, quoted) + after;
    var at, quote := |before|, Caret(before, path, directory, quoted);
    var caret := quote + 1;
    QuotedText(before, path, directory, quoted, after);
    QuotedCandidate(before, path, directory, quoted, after, true);
    forall k | at < k < quote - 1 && Trigger(text, k) ensures Candidate(text, k, caret).None? {
      assert k != at + 1;
      InnerTrigger(text, k, caret, quote);
    }
    LastTrigger(text, at, quote, value);
    BehindCandidate(text, quote);
    if Trigger(text, quote - 1) && Candidate(text, quote - 1, caret).Some? {
      LastIs(text, caret, quote - 1, caret);
      assert Inserted(before, path, directory, quoted).start == at by { InsertedStart(before, path, directory, quoted); }
    } else {
      LastIs(text, caret, at, caret);
    }
  }

  lemma InsertedStart(before: string, path: string, directory: bool, quoted: bool)
    ensures Inserted(before, path, directory, quoted).start == |before|
  {
  }

  /** An `@` just before the closing quote opens an empty token behind it. */
  lemma BehindCandidate(text: string, quote: nat)
    requires 0 < quote < |text| && text[quote] == '"'
    ensures
      var candidate := Candidate(text, quote - 1, quote + 1);
      && (candidate.Some? <==> SafeRelativePath(text[quote + 1..ContentEnd(text, quote + 1, true)], true))
      && (candidate.Some? ==> candidate.value.start == quote - 1)
  {
    hide SafeRelativePath;
    EmptyIsSafe();
    assert text[quote + 1..quote + 1] == "";
  }

  lemma EmptyIsSafe()
    ensures SafeRelativePath("", true) && SafeRelativePath("", false)
  {
  }

  lemma LastTrigger(text: string, at: nat, quote: nat, value: string)
    requires quote < |text| && at + 2 <= quote && text[at + 2..quote] == value && text[at + 1] == '"' && value != ""
    ensures Trigger(text, quote - 1) <==> EndsInTrigger(value)
  {
    NotWhite('"');
    assert text[quote - 1] == value[|value| - 1];
    if |value| >= 2 { assert text[quote - 2] == value[|value| - 2]; }
  }

  /** Such a path, concretely: a file whose name ends in a space and an `@`. */
  lemma BehindTheQuoteIsNotAlways()
    ensures SafeRelativePath("a @", false) && PathInsertion("a @", false, false) == "@\"a @\""
    ensures Find("@\"a @\"", 5) == Some(Inserted("", "a @", false, false))
    ensures Find("@\"a @\"", 6) != Some(Inserted("", "a @", false, false))
  {
    hide SafeRelativePath, Find, TokenOf;
    var path, after := "a @", "";
    assert SafeRelativePath(path, false) by { SmallPath(); }
    assert White(Value(path, false)[1]);
    assert NeedsQuotes(path, false, false);
    var text := "" + PathInsertion(path, false, false) + after;
    assert text == "@\"a @\"";
    InsertThenParse("", path, false, false, after);
    BehindTheQuote("", path, false, false, after);
    assert text[6..ContentEnd(text, 6, true)] == "";
    EmptyIsSafe();
  }

  lemma SmallPath()
    ensures SafeRelativePath("a @", false)
  {
    SplitPlain("a @");
  }

  lemma {:induction false} SplitPlain(s: string)
    requires forall i :: 0 <= i < |s| ==> s[i] != '/'
    ensures Split(s) == [s]
  {
    if s != "" {
      SplitPlain(s[1..]);
      assert s == [s[0]] + s[1..];
    }
  }

  // ----- Paths of executions

  function CanonicalAbsolute(path: string): Option<string> {
    if path == "" || path[0] != '/' || DoubleSlash(path) || !PlainChars(path) then None
    else
      var value := if path != "/" && path[|path| - 1] == '/' then path[..|path| - 1] else path;
      if value != "/" && !AllSafe(Split(value[1..])) then None else Some(value)
  }

  predicate DoubleSlash(path: string) {
    exists i :: 0 <= i < |path| - 1 && path[i] == '/' && path[i + 1] == '/'
  }

  predicate PlainChars(path: string) {
    forall i :: 0 <= i < |path| ==> path[i] != '\\' && (path[i] as int) >= 32 && (path[i] as int) != 127
  }

  function Joined(base: string, relative: string): string {
    if relative == "" then base else if base == "/" then base + relative else base + "/" + relative
  }

  function ExecutionPrefix(root: string, cwd: string): Option<string> {
    var base, execution := CanonicalAbsolute(root), CanonicalAbsolute(cwd);
    if base.None? || execution.None? then None
    else if execution == base then Some("")
    else
      var prefix := if base.value == "/" then "/" else base.value + "/";
      if !(prefix <= execution.value) then None
      else
        var relative := execution.value[|prefix|..];
        if SafeRelativePath(relative, false) then Some(relative) else None
  }

  /** The prefix is exactly the safe way from the root down to the directory, if there is one. */
  lemma ExecutionPrefixIff(root: string, cwd: string, relative: string)
    ensures ExecutionPrefix(root, cwd) == Some(relative) <==>
      && CanonicalAbsolute(root).Some? && CanonicalAbsolute(cwd).Some?
      && SafeRelativePath(relative, false) && Joined(CanonicalAbsolute(root).value, relative) == CanonicalAbsolute(cwd).value
  {
    hide SafeRelativePath, CanonicalAbsolute;
    EmptyIsSafe();
    var base, execution := CanonicalAbsolute(root), CanonicalAbsolute(cwd);
    if base.Some? && execution.Some? {
      var prefix := if base.value == "/" then "/" else base.value + "/";
      if relative != "" && Joined(base.value, relative) == execution.value {
        assert execution.value == prefix + relative;
        assert execution.value[|prefix|..] == relative;
      }
      if prefix <= execution.value { assert execution.value == prefix + execution.value[|prefix|..]; }
      SlashEnd(root, base.value);
      SlashEnd(cwd, execution.value);
      assert prefix[|prefix| - 1] == '/';
    }
  }

  lemma SlashEnd(path: string, value: string)
    requires CanonicalAbsolute(path) == Some(value)
    ensures value != "" && value[0] == '/' && (value == "/" || value[|value| - 1] != '/')
  {
    if value != "/" && value[|value| - 1] == '/' { SplitLast(value[1..]); }
  }
}
