/**
 What the composer's paths and tokens are: a safe path is a list of plain names, which never leads up; and a token that
 is found is where it says, with the directory to look in and the name to look for.
 */
module PathMeaning {
  import opened Wrappers
  import opened PathToken

  // ----- Paths as names

  /** The path of a list of names. */
  function PathOf(names: seq<string>): string
    requires names != []
  {
    if |names| == 1 then names[0] else names[0] + "/" + PathOf(names[1..])
  }

  predicate NoSlash(s: string) {
    forall i :: 0 <= i < |s| ==> s[i] != '/'
  }

  lemma {:induction false} SplitOfPath(names: seq<string>)
    requires names != [] && forall i :: 0 <= i < |names| ==> NoSlash(names[i])
    ensures Split(PathOf(names)) == names
    decreases |names|
  {
    if |names| == 1 {
      SplitPlain(names[0]);
    } else {
      assert forall i :: 0 <= i < |names[1..]| ==> names[1..][i] == names[i + 1];
      SplitOfPath(names[1..]);
      SplitName(names[0], PathOf(names[1..]));
    }
  }

  lemma {:induction false} SplitName(name: string, rest: string)
    requires NoSlash(name)
    ensures Split(name + "/" + rest) == [name] + Split(rest)
  {
    if name == "" {
      assert (name + "/" + rest)[1..] == rest;
    } else {
      assert (name + "/" + rest)[1..] == name[1..] + "/" + rest;
      SplitName(name[1..], rest);
      assert name == [name[0]] + name[1..];
    }
  }

  lemma {:induction false} PathOfSplit(path: string)
    ensures PathOf(Split(path)) == path && forall i :: 0 <= i < |Split(path)| ==> NoSlash(Split(path)[i])
  {
    hide PathOf, NoSlash;
    if path == "" {
      PathOfEmpty();
    } else {
      PathOfSplit(path[1..]);
      if path[0] == '/' { PathOfSlash(Split(path[1..])); } else { PathOfMore(path[0], Split(path[1..])); }
      assert path == [path[0]] + path[1..];
    }
  }

  lemma PathOfEmpty()
    ensures PathOf([""]) == "" && NoSlash("")
  {
  }

  lemma PathOfSlash(rest: seq<string>)
    requires rest != []
    ensures PathOf([""] + rest) == ['/'] + PathOf(rest) && NoSlash("")
  {
    assert ([""] + rest)[1..] == rest;
  }

  lemma PathOfMore(c: char, rest: seq<string>)
    requires rest != [] && c != '/'
    ensures PathOf([[c] + rest[0]] + rest[1..]) == [c] + PathOf(rest)
    ensures NoSlash(rest[0]) ==> NoSlash([c] + rest[0])
  {
    assert ([[c] + rest[0]] + rest[1..])[1..] == rest[1..];
    if |rest| > 1 { assert ([c] + rest[0]) + "/" + PathOf(rest[1..]) == [c] + (rest[0] + "/" + PathOf(rest[1..])); }
  }

  /** A name that may stand in a path: not empty, neither the directory itself nor the one above, and without slashes,
      backslashes, quotes or control characters. */
  predicate Name(s: string) {
    s != "" && s != "." && s != ".." && forall i :: 0 <= i < |s| ==> s[i] !in "/\\\"" && ' ' <= s[i] && s[i] as int != 127
  }

  ghost predicate Names(names: seq<string>) {
    names != [] && forall i :: 0 <= i < |names| ==> Name(names[i])
  }

  lemma {:induction false} CleanNames(names: seq<string>)
    requires names != [] && forall i :: 0 <= i < |names| ==> NoSlash(names[i])
    ensures Clean(PathOf(names)) <==> forall i :: 0 <= i < |names| ==> Clean(names[i])
    decreases |names|
  {
    if |names| > 1 {
      var rest := names[1..];
      assert forall i :: 0 <= i < |rest| ==> rest[i] == names[i + 1];
      CleanNames(rest);
      CleanConcat(names[0] + "/", PathOf(rest));
      CleanConcat(names[0], "/");
      assert (forall i :: 0 <= i < |names| ==> Clean(names[i])) <==> Clean(names[0]) && forall i :: 0 <= i < |rest| ==> Clean(rest[i]) by {
        if Clean(names[0]) && (forall i :: 0 <= i < |rest| ==> Clean(rest[i])) {
          forall i | 0 <= i < |names| ensures Clean(names[i]) { if i > 0 { assert rest[i - 1] == names[i]; } }
        }
      }
    }
  }

  lemma CleanConcat(a: string, b: string)
    ensures Clean(a + b) <==> Clean(a) && Clean(b)
  {
    if Clean(a + b) {
      forall i | 0 <= i < |a| ensures !Forbidden(a[i]) { assert (a + b)[i] == a[i]; }
      forall i | 0 <= i < |b| ensures !Forbidden(b[i]) { assert (a + b)[|a| + i] == b[i]; }
    }
  }

  lemma NameIff(s: string)
    ensures Name(s) <==> SafePart(s) && NoSlash(s) && Clean(s)
  {
    if SafePart(s) && NoSlash(s) && Clean(s) {
      forall i | 0 <= i < |s| ensures s[i] !in "/\\\"" && ' ' <= s[i] && s[i] as int != 127 { assert !Forbidden(s[i]); }
    }
  }

  /** A relative path is safe exactly if it is empty or the path of a list of names. */
  lemma SafeIff(path: string)
    ensures SafeRelativePath(path, false) <==> path == "" || exists names: seq<string> :: Names(names) && path == PathOf(names)
  {
    hide Clean, Name, SafePart;
    PathOfSplit(path);
    if SafeRelativePath(path, false) && path != "" {
      var names := Split(path);
      CleanNames(names);
      forall i | 0 <= i < |names| ensures Name(names[i]) { NameIff(names[i]); }
      assert Names(names);
    }
    if names: seq<string> :| Names(names) && path == PathOf(names) {
      forall i | 0 <= i < |names| ensures NoSlash(names[i]) && SafePart(names[i]) && Clean(names[i]) { NameIff(names[i]); }
      SplitOfPath(names);
      CleanNames(names);
      assert names[0] != "" by { NameIff(names[0]); FirstNotEmpty(names[0]); }
      assert path[0] == names[0][0];
    }
    EmptyIsSafe();
  }

  lemma FirstNotEmpty(s: string)
    requires SafePart(s)
    ensures s != ""
  {
  }

  /** While it is being typed, it may end in the slash of a directory. */
  lemma SafeTrailingIff(path: string)
    ensures SafeRelativePath(path, true) <==>
      || SafeRelativePath(path, false)
      || (|path| > 1 && path[|path| - 1] == '/' && SafeRelativePath(path[..|path| - 1], false))
  {
    if path != "" && path[|path| - 1] == '/' {
      assert path == path[..|path| - 1] + "/";
      CleanConcat(path[..|path| - 1], "/");
      SplitLast(path);
    }
  }

  // ----- Absolute paths

  /** What may stand between the slashes of an absolute path. */
  predicate Part(s: string) {
    s != "" && s != "." && s != ".." && forall i :: 0 <= i < |s| ==> s[i] !in "/\\" && ' ' <= s[i] && s[i] as int != 127
  }

  ghost predicate Parts(parts: seq<string>) {
    parts != [] && forall i :: 0 <= i < |parts| ==> Part(parts[i])
  }

  lemma PlainConcat(a: string, b: string)
    ensures PlainChars(a + b) <==> PlainChars(a) && PlainChars(b)
  {
    if PlainChars(a + b) {
      forall i | 0 <= i < |a| ensures a[i] != '\\' && (a[i] as int) >= 32 && (a[i] as int) != 127 { assert (a + b)[i] == a[i]; }
      forall i | 0 <= i < |b| ensures b[i] != '\\' && (b[i] as int) >= 32 && (b[i] as int) != 127 { assert (a + b)[|a| + i] == b[i]; }
    }
  }

  lemma {:induction false} PlainParts(parts: seq<string>)
    requires parts != []
    ensures PlainChars(PathOf(parts)) <==> forall i :: 0 <= i < |parts| ==> PlainChars(parts[i])
    decreases |parts|
  {
    hide PlainChars;
    if |parts| > 1 {
      var rest := parts[1..];
      PlainParts(rest);
      PlainConcat(parts[0] + "/", PathOf(rest));
      PlainConcat(parts[0], "/");
      assert PlainChars("/") by { SlashIsPlain(); }
      assert forall i :: 0 <= i < |rest| ==> rest[i] == parts[i + 1];
      if PlainChars(parts[0]) && (forall i :: 0 <= i < |rest| ==> PlainChars(rest[i])) {
        forall i | 0 <= i < |parts| ensures PlainChars(parts[i]) { if i > 0 { assert rest[i - 1] == parts[i]; } }
      }
    }
  }

  lemma SlashIsPlain()
    ensures PlainChars("/")
  {
  }

  lemma PartIff(s: string)
    ensures Part(s) <==> SafePart(s) && NoSlash(s) && PlainChars(s)
  {
  }

  lemma {:induction false} NoDouble(parts: seq<string>)
    requires Parts(parts)
    ensures
      var path := PathOf(parts);
      path != "" && path[0] != '/' && path[|path| - 1] != '/' && !DoubleSlash(path)
    decreases |parts|
  {
    var first := parts[0];
    assert Part(first) && first[0] !in "/" && first[|first| - 1] !in "/";
    if |parts| > 1 {
      var rest := parts[1..];
      assert forall i :: 0 <= i < |rest| ==> rest[i] == parts[i + 1];
      NoDouble(rest);
      var tail := PathOf(rest);
      var path := first + "/" + tail;
      forall i | 0 <= i < |path| - 1 ensures !(path[i] == '/' && path[i + 1] == '/') {
        if i < |first| { assert path[i] == first[i]; }
        else if i == |first| { assert path[i + 1] == tail[0]; }
        else { assert path[i] == tail[i - |first| - 1] && path[i + 1] == tail[i - |first|]; }
      }
      assert path[|path| - 1] == tail[|tail| - 1] && path[0] == first[0];
    }
  }

  lemma AbsoluteIs(parts: seq<string>)
    requires Parts(parts)
    ensures
      var v := "/" + PathOf(parts);
      CanonicalAbsolute(v) == Some(v) && CanonicalAbsolute(v + "/") == Some(v)
  {
    hide Part, SafePart;
    var tail := PathOf(parts);
    var v := "/" + tail;
    NoDouble(parts);
    forall i | 0 <= i < |parts| ensures SafePart(parts[i]) && NoSlash(parts[i]) && PlainChars(parts[i]) { PartIff(parts[i]); }
    PlainParts(parts);
    PlainConcat("/", tail);
    PlainConcat(v, "/");
    SlashIsPlain();
    SplitOfPath(parts);
    assert v[1..] == tail;
    assert v[|v| - 1] == tail[|tail| - 1];
    forall i | 0 <= i < |v + "/"| - 1 ensures !((v + "/")[i] == '/' && (v + "/")[i + 1] == '/') {
      if 0 < i < |v| - 1 { assert (v + "/")[i] == tail[i - 1] && (v + "/")[i + 1] == tail[i]; }
    }
    forall i | 0 <= i < |v| - 1 ensures !(v[i] == '/' && v[i + 1] == '/') {
      if 0 < i { assert v[i] == tail[i - 1] && v[i + 1] == tail[i]; }
    }
    assert (v + "/")[..|v|] == v;
  }

  /** An absolute path is canonical exactly if it is the root, or a list of parts behind a slash; one slash at its end is
      taken off. */
  lemma CanonicalIff(path: string, v: string)
    ensures CanonicalAbsolute(path) == Some(v) <==>
      && (v == "/" || exists parts: seq<string> :: Parts(parts) && v == "/" + PathOf(parts))
      && (path == v || (v != "/" && path == v + "/"))
  {
    hide Part, SafePart, PlainChars;
    if CanonicalAbsolute(path) == Some(v) {
      var tail := v[1..];
      assert v == "/" + tail && (path == v || path == v + "/");
      if v != "/" {
        var parts := Split(tail);
        PathOfSplit(tail);
        PlainConcat(v, path[|v|..]);
        assert path == v + path[|v|..];
        PlainConcat("/", tail);
        PlainParts(parts);
        forall i | 0 <= i < |parts| ensures Part(parts[i]) { PartIff(parts[i]); }
        assert Parts(parts);
      }
    }
    if v == "/" && path == v { RootIs(); }
    if parts: seq<string> :| Parts(parts) && v == "/" + PathOf(parts) && (path == v || path == v + "/") { AbsoluteIs(parts); }
  }

  lemma RootIs()
    ensures CanonicalAbsolute("/") == Some("/")
  {
  }

  // ----- What is found

  /** White space, one by one. */
  const SPACES := [9, 10, 11, 12, 13, 32, 160, 0x1680, 0x2000, 0x2001, 0x2002, 0x2003, 0x2004, 0x2005, 0x2006, 0x2007, 0x2008, 0x2009,
                   0x200A, 0x2028, 0x2029, 0x202F, 0x205F, 0x3000, 0xFEFF]

  lemma WhiteIff(c: char)
    ensures White(c) <==> c as int in SPACES
  {
  }

  /** The directory to look in, and the beginning of the name to look for. */
  predicate Looks(path: string, parent: string, query: string) {
    NoSlash(query) && path == (if NoSlash(path) then query else parent + "/" + query) && (NoSlash(path) ==> parent == "")
  }

  lemma TokenLooks(start: nat, end: nat, path: string, quoted: bool)
    ensures Looks(path, TokenOf(start, end, path, quoted).parent, TokenOf(start, end, path, quoted).query)
  {
    var slash := LastSlash(path);
    if slash >= 0 {
      assert path == path[..slash] + "/" + path[slash + 1..];
      assert path[slash] == '/';
    }
  }

  /** No break of the token: an unquoted one ends at white space, a quoted one at a quote or the end of the line. */
  predicate Unbroken(content: string, quoted: bool) {
    forall i :: 0 <= i < |content| ==> if quoted then content[i] != '"' && content[i] != '\n' && content[i] != '\r' else !White(content[i])
  }

  /** From an `@` at the beginning or after white space to the end of its content at `to`, closing quote included; with
      the caret in it, and content and content up to the caret safe. */
  ghost predicate Spans(text: string, caret: nat, t: Token, to: nat) {
    && t.start < caret <= t.end <= |text|
    && text[t.start] == '@' && (t.start > 0 ==> White(text[t.start - 1]))
    && (t.quoted <==> t.start + 1 < |text| && text[t.start + 1] == '"')
    && var from := t.start + (if t.quoted then 2 else 1);
    && from <= caret && from <= to <= |text|
    && t.end == to + (if t.quoted && to < |text| && text[to] == '"' then 1 else 0)
    && Unbroken(text[from..to], t.quoted) && (to < |text| ==> !Unbroken([text[to]], t.quoted))
    && t.path == text[from..if caret < to then caret else to]
    && SafeRelativePath(t.path, true) && SafeRelativePath(text[from..to], true)
  }

  /** A token of the text that the caret is in, with what it asks for. */
  ghost predicate IsToken(text: string, caret: nat, t: Token) {
    (exists to :: Spans(text, caret, t, to)) && Looks(t.path, t.parent, t.query)
  }

  lemma EndsIff(text: string, i: nat, quoted: bool)
    requires i < |text|
    ensures Ends(text, i, quoted) <==> !Unbroken([text[i]], quoted)
  {
    assert Unbroken([text[i]], quoted) <==> if quoted then text[i] != '"' && text[i] != '\n' && text[i] != '\r' else !White(text[i]) by {
      if Unbroken([text[i]], quoted) { assert [text[i]][0] == text[i]; }
    }
  }

  lemma UnbrokenIff(text: string, from: nat, to: nat, quoted: bool)
    requires from <= to <= |text|
    ensures Unbroken(text[from..to], quoted) <==> forall k :: from <= k < to ==> !Ends(text, k, quoted)
  {
    hide White;
    var content := text[from..to];
    if Unbroken(content, quoted) {
      forall k | from <= k < to ensures !Ends(text, k, quoted) { assert content[k - from] == text[k]; }
    }
    if forall k :: from <= k < to ==> !Ends(text, k, quoted) {
      forall i | 0 <= i < |content| ensures if quoted then content[i] != '"' && content[i] != '\n' && content[i] != '\r' else !White(content[i]) {
        assert !Ends(text, from + i, quoted);
      }
    }
  }

  /** The content of a token, from the trigger's point of view. */
  ghost predicate Content(text: string, at: nat, to: nat, quoted: bool) {
    && at < |text| && (quoted <==> QuotedAt(text, at)) && ContentStart(text, at) <= to <= |text|
    && ContentEnd(text, ContentStart(text, at), quoted) == to
  }

  lemma ContentIff(text: string, at: nat, to: nat, quoted: bool)
    requires at < |text| && (quoted <==> QuotedAt(text, at))
    ensures
      var from := ContentStart(text, at);
      Content(text, at, to, quoted) <==>
        from <= to <= |text| && Unbroken(text[from..to], quoted) && (to < |text| ==> !Unbroken([text[to]], quoted))
  {
    hide Unbroken, Ends;
    var from := ContentStart(text, at);
    if from <= to <= |text| {
      UnbrokenIff(text, from, to, quoted);
      if to < |text| { EndsIff(text, to, quoted); }
      if Unbroken(text[from..to], quoted) && (to < |text| ==> !Unbroken([text[to]], quoted)) { ContentEndIs(text, from, quoted, to); }
    }
  }

  lemma CandidateHas(text: string, at: nat, caret: nat)
    requires at < caret <= |text|
    ensures
      var quoted, from := QuotedAt(text, at), ContentStart(text, at);
      if caret < from then Candidate(text, at, caret).None?
      else
        var to := ContentEnd(text, from, quoted);
        var end := to + (if quoted && to < |text| && text[to] == '"' then 1 else 0);
        var path := text[from..if caret < to then caret else to];
        Candidate(text, at, caret) ==
          if caret <= end && SafeRelativePath(path, true) && SafeRelativePath(text[from..to], true)
          then Some(TokenOf(at, end, path, quoted)) else None
  {
    hide SafeRelativePath, ContentEnd, TokenOf;
  }

  lemma TokenOfIs(t: Token, start: nat, end: nat, path: string, quoted: bool)
    ensures t == TokenOf(start, end, path, quoted) <==>
      t.start == start && t.end == end && t.path == path && t.quoted == quoted && Looks(path, t.parent, t.query)
  {
    hide Looks;
    var u := TokenOf(start, end, path, quoted);
    TokenLooks(start, end, path, quoted);
    if Looks(path, t.parent, t.query) { LooksOnce(path, t.parent, t.query, u.parent, u.query); }
  }

  lemma SpansTo(text: string, caret: nat, t: Token, to: nat)
    requires Spans(text, caret, t, to)
    ensures QuotedAt(text, t.start) == t.quoted && ContentStart(text, t.start) <= caret && Trigger(text, t.start)
    ensures ContentStart(text, t.start) <= |text| && to == ContentEnd(text, ContentStart(text, t.start), t.quoted)
  {
    hide SafeRelativePath, White, Unbroken, ContentEnd;
    ContentIff(text, t.start, to, t.quoted);
  }

  lemma Found(text: string, at: nat, caret: nat)
    requires at < caret <= |text| && Trigger(text, at) && Candidate(text, at, caret).Some?
    ensures Candidate(text, at, caret).value.start == at && IsToken(text, caret, Candidate(text, at, caret).value)
  {
    hide SafeRelativePath, White, Looks, Unbroken, ContentEnd, TokenOf, Candidate;
    var from, quoted := ContentStart(text, at), QuotedAt(text, at);
    var to := ContentEnd(text, from, quoted);
    var t := Candidate(text, at, caret).value;
    CandidateHas(text, at, caret);
    ContentIff(text, at, to, quoted);
    TokenOfIs(t, at, to + (if quoted && to < |text| && text[to] == '"' then 1 else 0), text[from..if caret < to then caret else to], quoted);
    assert Spans(text, caret, t, to);
  }

  lemma IsFound(text: string, caret: nat, t: Token)
    requires caret <= |text| && IsToken(text, caret, t)
    ensures t.start < caret && Trigger(text, t.start) && Candidate(text, t.start, caret) == Some(t)
  {
    hide SafeRelativePath, White, Looks, Unbroken, ContentEnd, TokenOf, Candidate, Trigger;
    var to :| Spans(text, caret, t, to);
    SpansTo(text, caret, t, to);
    CandidateHas(text, t.start, caret);
    TokenOfIs(t, t.start, t.end, t.path, t.quoted);
  }

  lemma SlashIs(path: string, a: string, b: string)
    requires path == a + "/" + b && NoSlash(b)
    ensures LastSlash(path) == |a| && path[..|a|] == a && path[|a| + 1..] == b
  {
    assert path[|a|] == '/';
    assert forall k :: |a| < k < |path| ==> path[k] == b[k - |a| - 1];
  }

  /** There is one way to look. */
  lemma LooksOnce(path: string, a: string, b: string, c: string, d: string)
    requires Looks(path, a, b) && Looks(path, c, d)
    ensures a == c && b == d
  {
    if !NoSlash(path) {
      SlashIs(path, a, b);
      SlashIs(path, c, d);
    }
  }

  /** The token found is the last one of the text that the caret is in, and none is found exactly if there is none. */
  lemma {:induction false} LastMeans(text: string, caret: nat, n: nat)
    requires n <= caret <= |text|
    ensures Last(text, caret, n).Some? ==> Last(text, caret, n).value.start < n && IsToken(text, caret, Last(text, caret, n).value)
    ensures forall t :: IsToken(text, caret, t) && t.start < n ==> Last(text, caret, n).Some? && t.start <= Last(text, caret, n).value.start
  {
    hide IsToken, Candidate, Trigger;
    if n > 0 {
      LastMeans(text, caret, n - 1);
      if Trigger(text, n - 1) && Candidate(text, n - 1, caret).Some? { Found(text, n - 1, caret); }
      forall t | IsToken(text, caret, t) && t.start == n - 1 ensures Trigger(text, n - 1) && Candidate(text, n - 1, caret) == Some(t) {
        IsFound(text, caret, t);
      }
    }
  }

  lemma FindIff(text: string, caret: nat)
    requires caret <= |text|
    ensures Find(text, caret).None? <==> forall t :: !IsToken(text, caret, t)
    ensures Find(text, caret).Some? ==>
      && IsToken(text, caret, Find(text, caret).value)
      && forall t :: IsToken(text, caret, t) ==> t.start <= Find(text, caret).value.start
  {
    hide IsToken, Last;
    LastMeans(text, caret, caret);
    forall t | IsToken(text, caret, t) ensures t.start < caret { IsFound(text, caret, t); }
  }

  /** What is inserted for a directory goes on to be looked in; what is inserted for a file is looked for where it is. */
  lemma InsertedLooks(before: string, path: string, directory: bool, quoted: bool)
    ensures
      var t := Inserted(before, path, directory, quoted);
      if directory then t.path == path + "/" && t.parent == path && t.query == "" else t.path == path && Looks(path, t.parent, t.query)
  {
    var t := Inserted(before, path, directory, quoted);
    TokenLooks(t.start, t.end, t.path, t.quoted);
    if directory { SlashIs(t.path, path, ""); }
  }
}
