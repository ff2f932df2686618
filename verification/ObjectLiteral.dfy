/** The bracket-matching reader for the body expression of an importable workflow: it finds
    the object literal handed to JSON.stringify and splits it into raw entries, without
    running any JavaScript. */
module ObjectLiteral {
  import opened Common

  const MARKER: string := "JSON.stringify("

  // ---------------------------------------------------------------- characters and stripping

  /** The characters that Python's str.strip removes. */
  predicate IsSpace(c: char) {
    var n := c as int;
    || 0x09 <= n <= 0x0D || 0x1C <= n <= 0x20 || n == 0x85 || n == 0xA0 || n == 0x1680
    || 0x2000 <= n <= 0x200A || n == 0x2028 || n == 0x2029 || n == 0x202F || n == 0x205F || n == 0x3000
  }

  predicate IsQuote(c: char) {
    c == '\'' || c == '"'
  }

  function StripLeft(s: string, drop: char -> bool): string {
    if s != [] && drop(s[0]) then StripLeft(s[1..], drop) else s
  }

  function StripRight(s: string, drop: char -> bool): string {
    if s != [] && drop(s[|s| - 1]) then StripRight(s[..|s| - 1], drop) else s
  }

  function Strip(s: string, drop: char -> bool): string {
    StripRight(StripLeft(s, drop), drop)
  }

  predicate Only(s: string, which: char -> bool) {
    forall k :: 0 <= k < |s| ==> which(s[k])
  }

  /** Nothing to strip at either end. */
  predicate Trimmed(s: string, drop: char -> bool) {
    s != [] ==> !drop(s[0]) && !drop(s[|s| - 1])
  }

  lemma {:induction false} StripLeftPadded(pad: string, s: string, drop: char -> bool)
    requires Only(pad, drop)
    ensures StripLeft(pad + s, drop) == StripLeft(s, drop)
    decreases |pad|
  {
    if pad != [] {
      assert (pad + s)[1..] == pad[1..] + s;
      StripLeftPadded(pad[1..], s, drop);
    } else {
      assert pad + s == s;
    }
  }

  lemma {:induction false} StripRightPadded(s: string, pad: string, drop: char -> bool)
    requires Only(pad, drop)
    ensures StripRight(s + pad, drop) == StripRight(s, drop)
    decreases |pad|
  {
    if pad != [] {
      assert (s + pad)[..|s + pad| - 1] == s + pad[..|pad| - 1];
      StripRightPadded(s, pad[..|pad| - 1], drop);
    } else {
      assert s + pad == s;
    }
  }

  /** Stripping undoes padding. */
  lemma StripPadded(before: string, s: string, after: string, drop: char -> bool)
    requires Only(before, drop) && Only(after, drop) && Trimmed(s, drop)
    ensures Strip(before + s + after, drop) == s
  {
    assert before + s + after == before + (s + after);
    StripLeftPadded(before, s + after, drop);
    if s == [] {
      assert s + after == after + [];
      StripLeftPadded(after, [], drop);
    } else {
      StripRightPadded(s, after, drop);
    }
  }

  /** The blanks of Python's str.strip, one by one, and the two quotes. */
  lemma BlanksAndQuotes(c: char)
    ensures IsSpace(c) <==>
      c as int in {0x09, 0x0A, 0x0B, 0x0C, 0x0D, 0x1C, 0x1D, 0x1E, 0x1F, 0x20, 0x85, 0xA0, 0x1680, 0x2000, 0x2001,
                   0x2002, 0x2003, 0x2004, 0x2005, 0x2006, 0x2007, 0x2008, 0x2009, 0x200A, 0x2028, 0x2029, 0x202F,
                   0x205F, 0x3000}
    ensures IsQuote(c) <==> c as int in {0x22, 0x27}
  {
  }

  ghost predicate Pads(before: string, s: string, after: string, whole: string, drop: char -> bool) {
    Only(before, drop) && Only(after, drop) && whole == before + s + after
  }

  /** For every text, stripping takes padding off both ends and leaves none. */
  lemma StripIs(s: string, drop: char -> bool)
    ensures Trimmed(Strip(s, drop), drop)
    ensures exists before, after :: Pads(before, Strip(s, drop), after, s, drop)
  {
    var before := StripLeftIs(s, drop);
    var middle := StripLeft(s, drop);
    var after := StripRightIs(middle, drop);
    assert s == before + Strip(s, drop) + after;
    assert Pads(before, Strip(s, drop), after, s, drop);
    if Strip(s, drop) != [] {
      assert Strip(s, drop)[0] == middle[0];
    }
  }

  lemma {:induction false} StripLeftIs(s: string, drop: char -> bool) returns (before: string)
    ensures Only(before, drop) && s == before + StripLeft(s, drop)
    ensures StripLeft(s, drop) != [] ==> !drop(StripLeft(s, drop)[0])
    decreases |s|
  {
    before := [];
    if s != [] && drop(s[0]) {
      var rest := StripLeftIs(s[1..], drop);
      before := [s[0]] + rest;
    }
  }

  lemma {:induction false} StripRightIs(s: string, drop: char -> bool) returns (after: string)
    ensures Only(after, drop) && s == StripRight(s, drop) + after
    ensures StripRight(s, drop) != [] ==> !drop(StripRight(s, drop)[|StripRight(s, drop)| - 1])
    decreases |s|
  {
    after := [];
    if s != [] && drop(s[|s| - 1]) {
      var rest := StripRightIs(s[..|s| - 1], drop);
      after := rest + [s[|s| - 1]];
    }
  }

  lemma {:induction false} StripBlankIff(s: string, drop: char -> bool)
    ensures Strip(s, drop) == [] <==> Only(s, drop)
  {
    if Only(s, drop) {
      assert s == s + [] + [];
      StripPadded(s, [], [], drop);
    } else {
      StripLeftKeeps(s, drop);
      StripRightKeeps(StripLeft(s, drop), drop);
    }
  }

  lemma {:induction false} StripLeftKeeps(s: string, drop: char -> bool)
    requires !Only(s, drop)
    ensures !Only(StripLeft(s, drop), drop)
    decreases |s|
  {
    if drop(s[0]) {
      assert !Only(s[1..], drop) by {
        var k :| 0 <= k < |s| && !drop(s[k]);
        assert s[1..][k - 1] == s[k];
      }
      StripLeftKeeps(s[1..], drop);
    }
  }

  lemma {:induction false} StripRightKeeps(s: string, drop: char -> bool)
    requires !Only(s, drop)
    ensures StripRight(s, drop) != []
    decreases |s|
  {
    if drop(s[|s| - 1]) {
      assert !Only(s[..|s| - 1], drop) by {
        var k :| 0 <= k < |s| && !drop(s[k]);
        assert s[..|s| - 1][k] == s[k];
      }
      StripRightKeeps(s[..|s| - 1], drop);
    }
  }

  // ---------------------------------------------------------------- depth

  /** The extractor counts braces; the splitter counts all three kinds of bracket together. */
  datatype Counting = Braces | Brackets

  predicate Opens(c: char, which: Counting) {
    c == '{' || (which.Brackets? && (c == '(' || c == '['))
  }

  predicate Closes(c: char, which: Counting) {
    c == '}' || (which.Brackets? && (c == ')' || c == ']'))
  }

  function Delta(c: char, which: Counting): int {
    if Opens(c, which) then 1 else if Closes(c, which) then -1 else 0
  }

  function Depth(s: string, which: Counting): int {
    if s == [] then 0 else Depth(s[..|s| - 1], which) + Delta(s[|s| - 1], which)
  }

  lemma {:induction false} DepthAdds(a: string, b: string, which: Counting)
    ensures Depth(a + b, which) == Depth(a, which) + Depth(b, which)
    decreases |b|
  {
    if b == [] {
      assert a + b == a;
    } else {
      assert (a + b)[..|a + b| - 1] == a + b[..|b| - 1];
      DepthAdds(a, b[..|b| - 1], which);
    }
  }

  lemma DepthNext(s: string, k: nat, which: Counting)
    requires k < |s|
    ensures Depth(s[..k + 1], which) == Depth(s[..k], which) + Delta(s[k], which)
  {
    assert s[..k + 1][..k] == s[..k];
  }

  lemma DepthGrows(s: string, start: nat, k: nat, which: Counting)
    requires start <= k < |s|
    ensures Depth(s[start..k + 1], which) == Depth(s[start..k], which) + Delta(s[k], which)
  {
    assert s[start..k + 1][..k - start] == s[start..k];
  }

  // ---------------------------------------------------------------- the first top-level separator

  ghost predicate TopAt(s: string, c: char, k: nat) {
    k < |s| && s[k] == c && Depth(s[..k], Brackets) == 0
  }

  ghost predicate NoTop(s: string, c: char) {
    forall k :: 0 <= k < |s| ==> !TopAt(s, c, k)
  }

  ghost predicate FirstTopAt(s: string, c: char, k: nat) {
    TopAt(s, c, k) && forall j :: 0 <= j < k ==> !TopAt(s, c, j)
  }

  /** The first place from k on where c stands outside all brackets. */
  function Scan(s: string, c: char, k: nat, depth: int): (r: Option<nat>)
    requires k <= |s| && depth == Depth(s[..k], Brackets)
    ensures r.Some? ==> k <= r.value && TopAt(s, c, r.value) && forall j :: k <= j < r.value ==> !TopAt(s, c, j)
    ensures r.None? ==> forall j :: k <= j < |s| ==> !TopAt(s, c, j)
    decreases |s| - k
  {
    if k == |s| then None
    else
      DepthNext(s, k, Brackets);
      if s[k] == c && depth == 0 then Some(k)
      else Scan(s, c, k + 1, depth + Delta(s[k], Brackets))
  }

  function FirstTop(s: string, c: char): (r: Option<nat>)
    ensures r.Some? ==> FirstTopAt(s, c, r.value)
    ensures r.None? ==> NoTop(s, c)
  {
    assert s[..0] == [];
    Scan(s, c, 0, 0)
  }

  /** There is only one first place. */
  lemma FirstTopIs(s: string, c: char, k: nat)
    requires FirstTopAt(s, c, k)
    ensures FirstTop(s, c) == Some(k)
  {
    var r := FirstTop(s, c);
    assert TopAt(s, c, k);
    assert r.Some? ==> TopAt(s, c, r.value);
  }

  // ---------------------------------------------------------------- reading entries

  /** The pieces between top-level commas; a blank last piece is dropped. */
  function Pieces(s: string): (r: seq<string>)
    decreases |s|
  {
    var comma := FirstTop(s, ',');
    if comma.Some? then [s[..comma.value]] + Pieces(s[comma.value + 1..])
    else if Strip(s, IsSpace) == [] then []
    else [s]
  }

  /** One piece, stored under its unquoted key unless it has no colon or no key. */
  function Put(m: map<string, string>, piece: string): map<string, string> {
    var colon := FirstTop(piece, ':');
    if colon.None? then m
    else
      var key := Strip(Strip(piece[..colon.value], IsSpace), IsQuote);
      if key == [] then m else m[key := Strip(piece[colon.value + 1..], IsSpace)]
  }

  function Collect(pieces: seq<string>): map<string, string> {
    if pieces == [] then map[] else Put(Collect(pieces[..|pieces| - 1]), pieces[|pieces| - 1])
  }

  predicate Braced(s: string) {
    2 <= |s| && s[0] == '{' && s[|s| - 1] == '}'
  }

  function ObjectEntries(literal: string): map<string, string> {
    var s := Strip(literal, IsSpace);
    if Braced(s) then Collect(Pieces(s[1..|s| - 1])) else map[]
  }

  /** The piece has a colon outside brackets, a key before the first one, and this value after it. */
  ghost predicate Files(piece: string, key: string, value: string) {
    && key != []
    && exists k: nat :: FirstTopAt(piece, ':', k) && key == Strip(Strip(piece[..k], IsSpace), IsQuote)
         && value == Strip(piece[k + 1..], IsSpace)
  }

  /** A piece stores what it files, and a piece without a colon or a key stores nothing. */
  lemma PutFiles(m: map<string, string>, piece: string)
    ensures forall key, value :: Files(piece, key, value) ==> Put(m, piece) == m[key := value]
    ensures (forall key, value :: !Files(piece, key, value)) ==> Put(m, piece) == m
  {
    var colon := FirstTop(piece, ':');
    if colon.Some? {
      forall k: nat | FirstTopAt(piece, ':', k) ensures k == colon.value {
        FirstTopIs(piece, ':', k);
      }
      var key := Strip(Strip(piece[..colon.value], IsSpace), IsQuote);
      assert key != [] ==> Files(piece, key, Strip(piece[colon.value + 1..], IsSpace));
    } else {
      forall k: nat ensures !FirstTopAt(piece, ':', k) {
        if k < |piece| { assert !TopAt(piece, ':', k); }
      }
    }
  }

  ghost predicate FilesKey(piece: string, key: string) {
    exists value :: Files(piece, key, value)
  }

  /** The last piece that files the key files this value. */
  ghost predicate LastFiles(pieces: seq<string>, k: nat, key: string, value: string) {
    && k < |pieces| && Files(pieces[k], key, value)
    && forall j :: k < j < |pieces| ==> !FilesKey(pieces[j], key)
  }

  lemma PutKeepsOthers(m: map<string, string>, piece: string, key: string)
    requires !FilesKey(piece, key)
    ensures key in Put(m, piece) <==> key in m
    ensures key in m ==> Put(m, piece)[key] == m[key]
  {
    PutFiles(m, piece);
    if other, value :| Files(piece, other, value) {
      assert Put(m, piece) == m[other := value];
      assert FilesKey(piece, other);
    }
  }

  /** For every input, a key is read exactly when some piece files it, and its value is that of
      the last piece which does. */
  lemma {:induction false} EntriesAreFiled(pieces: seq<string>, key: string)
    ensures key !in Collect(pieces) ==> forall k :: 0 <= k < |pieces| ==> !FilesKey(pieces[k], key)
    ensures key in Collect(pieces) ==> exists k: nat :: LastFiles(pieces, k, key, Collect(pieces)[key])
    decreases |pieces|
  {
    if pieces != [] {
      var n := |pieces| - 1;
      EntriesAreFiled(pieces[..n], key);
      if FilesKey(pieces[n], key) {
        FiledAtTheEnd(pieces, key);
      } else {
        PutKeepsOthers(Collect(pieces[..n]), pieces[n], key);
        LaterPieceAside(pieces[..n], pieces[n], key);
        assert pieces == pieces[..n] + [pieces[n]];
      }
    }
  }

  lemma FiledAtTheEnd(pieces: seq<string>, key: string)
    requires pieces != [] && FilesKey(pieces[|pieces| - 1], key)
    ensures key in Collect(pieces) && LastFiles(pieces, |pieces| - 1, key, Collect(pieces)[key])
  {
    var n := |pieces| - 1;
    PutFiles(Collect(pieces[..n]), pieces[n]);
    var value :| Files(pieces[n], key, value);
    assert Collect(pieces) == Collect(pieces[..n])[key := value];
  }

  lemma LaterPieceAside(init: seq<string>, last: string, key: string)
    requires !FilesKey(last, key)
    ensures forall k: nat, value :: LastFiles(init, k, key, value) ==> LastFiles(init + [last], k, key, value)
    ensures (forall k :: 0 <= k < |init| ==> !FilesKey(init[k], key)) ==>
      forall k :: 0 <= k < |init + [last]| ==> !FilesKey((init + [last])[k], key)
  {
  }

  /** Nothing is read from a text that is not in braces. */
  lemma UnbracedIsEmpty(literal: string)
    ensures var s := Strip(literal, IsSpace);
      s == [] || s[0] != '{' || s[|s| - 1] != '}' ==> ObjectEntries(literal) == map[]
  {
  }

  /** The comma loop's progress: the pieces found, and no separator yet in the current one. */
  ghost predicate SplitSoFar(s: string, entries: seq<string>, start: nat, idx: nat, depth: int) {
    && start <= idx <= |s| && depth == Depth(s[start..idx], Brackets)
    && (forall j :: 0 <= j < idx - start ==> !TopAt(s[start..], ',', j))
    && entries + Pieces(s[start..]) == Pieces(s)
  }

  lemma SplitStarts(s: string)
    ensures SplitSoFar(s, [], 0, 0, 0)
  {
    assert s[0..] == s && s[0..0] == [];
    assert [] + Pieces(s) == Pieces(s);
  }

  /** Whether the next character is a separator of the current piece. */
  lemma TopNext(s: string, start: nat, idx: nat)
    requires start <= idx < |s|
    ensures TopAt(s[start..], ',', idx - start) <==> s[idx] == ',' && Depth(s[start..idx], Brackets) == 0
  {
    assert s[start..][..idx - start] == s[start..idx];
  }

  lemma SplitMoves(s: string, entries: seq<string>, start: nat, idx: nat, depth: int)
    requires SplitSoFar(s, entries, start, idx, depth) && idx < |s| && !(s[idx] == ',' && depth == 0)
    ensures SplitSoFar(s, entries, start, idx + 1, depth + Delta(s[idx], Brackets))
  {
    DepthGrows(s, start, idx, Brackets);
    TopNext(s, start, idx);
  }

  lemma SplitCuts(s: string, entries: seq<string>, start: nat, idx: nat)
    requires SplitSoFar(s, entries, start, idx, 0) && idx < |s| && s[idx] == ','
    ensures SplitSoFar(s, entries + [s[start..idx]], idx + 1, idx + 1, 0)
  {
    var rest := s[start..];
    TopNext(s, start, idx);
    FirstTopIs(rest, ',', idx - start);
    assert rest[..idx - start] == s[start..idx] && rest[idx - start + 1..] == s[idx + 1..];
    assert entries + [s[start..idx]] + Pieces(s[idx + 1..]) == entries + ([s[start..idx]] + Pieces(s[idx + 1..]));
  }

  lemma SplitEnds(s: string, entries: seq<string>, start: nat, depth: int)
    requires SplitSoFar(s, entries, start, |s|, depth)
    ensures Pieces(s) == if Strip(s[start..], IsSpace) != [] then entries + [s[start..]] else entries
  {
    assert NoTop(s[start..], ',');
  }

  /** The comma loop: depth runs over the whole text and start moves past each separator. */
  method SplitPieces(inner: string) returns (entries: seq<string>)
    ensures entries == Pieces(inner)
  {
    entries := [];
    var depth, start, idx := 0, 0, 0;
    SplitStarts(inner);
    while idx < |inner|
      invariant SplitSoFar(inner, entries, start, idx, depth)
    {
      var ch := inner[idx];
      if ch == ',' && depth == 0 {
        SplitCuts(inner, entries, start, idx);
      } else {
        SplitMoves(inner, entries, start, idx, depth);
      }
      if Opens(ch, Brackets) {
        depth := depth + 1;
      } else if Closes(ch, Brackets) {
        depth := depth - 1;
      } else if ch == ',' && depth == 0 {
        entries := entries + [inner[start..idx]];
        start := idx + 1;
      }
      idx := idx + 1;
    }
    SplitEnds(inner, entries, start, depth);
    var tail := inner[start..];
    if Strip(tail, IsSpace) != [] {
      entries := entries + [tail];
    }
  }

  /** The colon loop of one entry. */
  method FindColon(entry: string) returns (colon: Option<nat>)
    ensures colon == FirstTop(entry, ':')
  {
    var depth, idx := 0, 0;
    while idx < |entry|
      invariant 0 <= idx <= |entry|
      invariant depth == Depth(entry[..idx], Brackets)
      invariant forall j :: 0 <= j < idx ==> !TopAt(entry, ':', j)
    {
      var ch := entry[idx];
      DepthNext(entry, idx, Brackets);
      if Opens(ch, Brackets) {
        depth := depth + 1;
      } else if Closes(ch, Brackets) {
        depth := depth - 1;
      } else if ch == ':' && depth == 0 {
        FirstTopIs(entry, ':', idx);
        return Some(idx);
      }
      idx := idx + 1;
    }
    return None;
  }

  lemma CollectNext(pieces: seq<string>, n: nat)
    requires n < |pieces|
    ensures Collect(pieces[..n + 1]) == Put(Collect(pieces[..n]), pieces[n])
  {
    assert pieces[..n + 1][..n] == pieces[..n];
  }

  /** One entry: its first colon outside brackets, its key without blanks and quotes, its value. */
  method FileEntry(out: map<string, string>, entry: string) returns (out': map<string, string>)
    ensures out' == Put(out, entry)
  {
    out' := out;
    var colon := FindColon(entry);
    if colon.Some? {
      var key := Strip(Strip(entry[..colon.value], IsSpace), IsQuote);
      if key != [] {
        out' := out[key := Strip(entry[colon.value + 1..], IsSpace)];
      }
    }
  }

  /** _object_entries: split on commas, then file each piece under its key. */
  method ReadEntries(literal: string) returns (out: map<string, string>)
    ensures out == ObjectEntries(literal)
  {
    var s := Strip(literal, IsSpace);
    if !Braced(s) {
      return map[];
    }
    var entries := SplitPieces(s[1..|s| - 1]);
    out := map[];
    var n := 0;
    while n < |entries|
      invariant 0 <= n <= |entries|
      invariant out == Collect(entries[..n])
    {
      CollectNext(entries, n);
      out := FileEntry(out, entries[n]);
      n := n + 1;
    }
    assert entries[..n] == entries;
  }

  // ---------------------------------------------------------------- finding the literal

  predicate OccursAt(s: string, pattern: string, k: nat) {
    k + |pattern| <= |s| && s[k..k + |pattern|] == pattern
  }

  /** Python's str.find. */
  function Find(s: string, pattern: string, from: nat): (r: Option<nat>)
    ensures r.Some? ==> from <= r.value && OccursAt(s, pattern, r.value)
    ensures r.Some? ==> forall j :: from <= j < r.value ==> !OccursAt(s, pattern, j)
    ensures r.None? ==> forall j :: from <= j ==> !OccursAt(s, pattern, j)
    decreases |s| - from
  {
    if from > |s| then None
    else if OccursAt(s, pattern, from) then Some(from)
    else if from == |s| then None
    else Find(s, pattern, from + 1)
  }

  /** The first brace after the first marker. */
  function Opening(body: string): (r: Option<nat>)
    ensures r.Some? ==> r.value < |body| && body[r.value] == '{'
  {
    var i := Find(body, MARKER, 0);
    if i.None? then None else Find(body, "{", i.value + |MARKER|)
  }

  /** The literal is the shortest non-empty stretch from the opening brace in which braces balance. */
  ghost predicate ShortestBalanced(body: string, j: nat, literal: string)
  {
    && literal != [] && j + |literal| <= |body| && literal == body[j..j + |literal|] && Depth(literal, Braces) == 0
    && forall m :: j < m < j + |literal| ==> Depth(body[j..m], Braces) != 0
  }

  ghost predicate NeverBalances(body: string, j: nat) {
    forall m :: j < m <= |body| ==> Depth(body[j..m], Braces) != 0
  }

  /** The extractor: it finds the shortest balanced stretch from the first brace after the
      marker, and gives up exactly when there is no marker, no brace, or no balance. */
  method ExtractStringifyObject(body: string) returns (r: Option<string>)
    ensures r.Some? ==> Opening(body).Some? && ShortestBalanced(body, Opening(body).value, r.value)
    ensures r.None? ==> Opening(body).None? || NeverBalances(body, Opening(body).value)
  {
    var i := Find(body, MARKER, 0);
    if i.None? {
      return None;
    }
    var j := Find(body, "{", i.value + |MARKER|);
    if j.None? {
      return None;
    }
    var depth, k := 0, j.value;
    while k < |body|
      invariant j.value <= k <= |body|
      invariant depth == Depth(body[j.value..k], Braces)
      invariant k == j.value || 0 < depth
      invariant forall m :: j.value < m <= k ==> Depth(body[j.value..m], Braces) != 0
    {
      var ch := body[k];
      DepthGrows(body, j.value, k, Braces);
      if ch == '{' {
        depth := depth + 1;
      } else if ch == '}' {
        depth := depth - 1;
        if depth == 0 {
          return Some(body[j.value..k + 1]);
        }
      }
      k := k + 1;
    }
    return None;
  }

  // ---------------------------------------------------------------- writing a literal

  /** One written entry: a key and a value, with any blanks around them and any quotes around the key. */
  datatype Entry = Entry(lead: string, open: string, key: string, close: string, beforeColon: string,
                         afterColon: string, value: string, trail: string)

  function Head(e: Entry): string {
    e.lead + (e.open + e.key + e.close) + e.beforeColon
  }

  function Rest(e: Entry): string {
    e.afterColon + e.value + e.trail
  }

  function Text(e: Entry): string {
    Head(e) + ":" + Rest(e)
  }

  /** What stands between the braces: entries separated by commas; a trailing comma may follow
      the last one, with blanks after it. */
  function Inner(es: seq<Entry>, trailing: Option<string>): string {
    if es == [] then (if trailing.Some? then trailing.value else [])
    else if |es| == 1 && trailing.None? then Text(es[0])
    else Text(es[0]) + "," + Inner(es[1..], trailing)
  }

  function Literal(es: seq<Entry>, trailing: Option<string>): string {
    "{" + Inner(es, trailing) + "}"
  }

  /** No bracket, comma or colon. */
  predicate Flat(s: string) {
    forall k :: 0 <= k < |s| ==> Delta(s[k], Brackets) == 0 && s[k] != ',' && s[k] != ':'
  }

  predicate GoodKey(key: string) {
    key != [] && Flat(key) && Trimmed(key, IsSpace) && Trimmed(key, IsQuote)
  }

  ghost predicate GoodValue(value: string) {
    Trimmed(value, IsSpace) && Depth(value, Brackets) == 0 && NoTop(value, ',')
  }

  predicate Padded(e: Entry) {
    && Only(e.lead, IsSpace) && Only(e.beforeColon, IsSpace) && Only(e.afterColon, IsSpace) && Only(e.trail, IsSpace)
    && Only(e.open, IsQuote) && Only(e.close, IsQuote)
  }

  ghost predicate Good(e: Entry) {
    Padded(e) && GoodKey(e.key) && GoodValue(e.value)
  }

  ghost predicate AllGood(es: seq<Entry>) {
    forall k :: 0 <= k < |es| ==> Good(es[k])
  }

  predicate BlankTrailing(trailing: Option<string>) {
    trailing.Some? ==> Only(trailing.value, IsSpace)
  }

  /** The dictionary of written entries; a repeated key keeps its last value, as a literal does. */
  function Dictionary(es: seq<Entry>): map<string, string> {
    if es == [] then map[] else Dictionary(es[..|es| - 1])[es[|es| - 1].key := es[|es| - 1].value]
  }

  ghost predicate Names(es: seq<Entry>, key: string) {
    exists k :: 0 <= k < |es| && es[k].key == key
  }

  ghost predicate Distinct(es: seq<Entry>) {
    forall j, k :: 0 <= j < k < |es| ==> es[j].key != es[k].key
  }

  lemma {:induction false} FlatDepth(s: string)
    requires Flat(s)
    ensures Depth(s, Brackets) == 0
    decreases |s|
  {
    if s != [] { FlatDepth(s[..|s| - 1]); }
  }

  lemma NoTopAppends(a: string, b: string, c: char)
    requires NoTop(a, c) && NoTop(b, c) && Depth(a, Brackets) == 0
    ensures NoTop(a + b, c)
  {
    forall k | 0 <= k < |a + b| ensures !TopAt(a + b, c, k) {
      if k < |a| {
        assert (a + b)[..k] == a[..k] && !TopAt(a, c, k);
      } else {
        assert (a + b)[..k] == a + b[..k - |a|] && !TopAt(b, c, k - |a|);
        DepthAdds(a, b[..k - |a|], Brackets);
      }
    }
  }

  lemma SeparatorIsFirst(a: string, b: string, c: char)
    requires NoTop(a, c) && Depth(a, Brackets) == 0
    ensures FirstTop(a + [c] + b, c) == Some(|a|)
  {
    var s := a + [c] + b;
    forall k | 0 <= k < |a| ensures !TopAt(s, c, k) {
      assert s[..k] == a[..k] && !TopAt(a, c, k);
    }
    assert s[..|a|] == a;
    FirstTopIs(s, c, |a|);
  }

  lemma HeadIsFlat(e: Entry)
    requires Good(e)
    ensures Flat(Head(e)) && Depth(Head(e), Brackets) == 0 && NoTop(Head(e), ':') && NoTop(Head(e), ',')
  {
    FlatDepth(Head(e));
  }

  /** A written entry is one piece: balanced, with no comma of its own. */
  lemma TextIsOnePiece(e: Entry)
    requires Good(e)
    ensures Depth(Text(e), Brackets) == 0 && NoTop(Text(e), ',')
  {
    HeadIsFlat(e);
    FlatText(":" , ',');
    var a := e.afterColon;
    FlatDepth(a);
    FlatDepth(e.trail);
    DepthAdds(a, e.value, Brackets);
    DepthAdds(a + e.value, e.trail, Brackets);
    NoTopAppends(a, e.value, ',');
    NoTopAppends(a + e.value, e.trail, ',');
    var h := Head(e) + ":";
    DepthAdds(Head(e), ":", Brackets);
    NoTopAppends(Head(e), ":", ',');
    DepthAdds(h, Rest(e), Brackets);
    NoTopAppends(h, Rest(e), ',');
  }

  lemma FlatText(s: string, c: char)
    requires s == ":" && c != ':'
    ensures Depth(s, Brackets) == 0 && NoTop(s, c)
  {
    assert s[..0] == [];
  }

  /** Reading one written entry stores exactly its key and value. */
  lemma TextIsRead(e: Entry, m: map<string, string>)
    requires Good(e)
    ensures Put(m, Text(e)) == m[e.key := e.value]
  {
    HeadIsFlat(e);
    SeparatorIsFirst(Head(e), Rest(e), ':');
    var piece := Text(e);
    assert piece[..|Head(e)|] == Head(e) && piece[|Head(e)| + 1..] == Rest(e);
    var quoted := e.open + e.key + e.close;
    assert Trimmed(quoted, IsSpace);
    StripPadded(e.lead, quoted, e.beforeColon, IsSpace);
    StripPadded(e.open, e.key, e.close, IsQuote);
    StripPadded(e.afterColon, e.value, e.trail, IsSpace);
  }

  function Texts(es: seq<Entry>): (r: seq<string>)
    ensures |r| == |es| && forall k :: 0 <= k < |es| ==> r[k] == Text(es[k])
  {
    seq(|es|, k requires 0 <= k < |es| => Text(es[k]))
  }

  lemma NotBlank(e: Entry)
    requires Good(e)
    ensures Strip(Text(e), IsSpace) != []
  {
    StripBlankIff(Text(e), IsSpace);
    assert Text(e)[|Head(e)|] == ':';
  }

  lemma BlankHasNoPieces(s: string)
    requires Only(s, IsSpace)
    ensures Pieces(s) == []
  {
    StripBlankIff(s, IsSpace);
    assert NoTop(s, ',');
  }

  lemma TextThenRest(e: Entry, rest: string)
    requires Good(e)
    ensures Pieces(Text(e)) == [Text(e)]
    ensures Pieces(Text(e) + "," + rest) == [Text(e)] + Pieces(rest)
  {
    var piece := Text(e);
    TextIsOnePiece(e);
    NotBlank(e);
    SeparatorIsFirst(piece, rest, ',');
    var s := piece + "," + rest;
    assert s[..|piece|] == piece && s[|piece| + 1..] == rest;
  }

  lemma TextsOf(es: seq<Entry>)
    requires es != []
    ensures Texts(es) == [Text(es[0])] + Texts(es[1..])
  {
  }

  /** The splitter recovers the written entries. */
  lemma {:induction false} PiecesAreTexts(es: seq<Entry>, trailing: Option<string>)
    requires AllGood(es) && BlankTrailing(trailing)
    ensures Pieces(Inner(es, trailing)) == Texts(es)
    decreases |es|
  {
    if es == [] {
      BlankHasNoPieces(Inner(es, trailing));
    } else {
      TextThenRest(es[0], Inner(es[1..], trailing));
      TextsOf(es);
      if |es| > 1 || trailing.Some? {
        PiecesAreTexts(es[1..], trailing);
      }
    }
  }

  lemma {:induction false} CollectedTexts(es: seq<Entry>)
    requires AllGood(es)
    ensures Collect(Texts(es)) == Dictionary(es)
    decreases |es|
  {
    if es != [] {
      var init, last := es[..|es| - 1], es[|es| - 1];
      CollectedTexts(init);
      assert Texts(es)[..|es| - 1] == Texts(init);
      TextIsRead(last, Dictionary(init));
    }
  }

  /** The round trip: whatever blanks, quotes and trailing comma a literal is written with,
      reading it gives back exactly the dictionary that was written. */
  lemma ReadUndoesWrite(es: seq<Entry>, trailing: Option<string>, before: string, after: string)
    requires AllGood(es) && BlankTrailing(trailing) && Only(before, IsSpace) && Only(after, IsSpace)
    ensures ObjectEntries(before + Literal(es, trailing) + after) == Dictionary(es)
  {
    var s := Literal(es, trailing);
    StripPadded(before, s, after, IsSpace);
    assert s[1..|s| - 1] == Inner(es, trailing);
    PiecesAreTexts(es, trailing);
    CollectedTexts(es);
  }

  /** With distinct keys, that dictionary holds every entry and nothing else. */
  lemma {:induction false} DictionaryHoldsAll(es: seq<Entry>)
    ensures forall key :: key in Dictionary(es) <==> Names(es, key)
    ensures Distinct(es) ==>
      forall k :: 0 <= k < |es| ==> es[k].key in Dictionary(es) && Dictionary(es)[es[k].key] == es[k].value
    decreases |es|
  {
    if es != [] {
      var init := es[..|es| - 1];
      DictionaryHoldsAll(init);
      forall key ensures key in Dictionary(es) <==> Names(es, key) {
        if k :| 0 <= k < |es| && es[k].key == key {
          if k < |init| { assert init[k].key == key; }
        }
      }
    }
  }

  // ---------------------------------------------------------------- the workflow check

  /** Depth never falls below zero and ends at zero. */
  ghost predicate Nested(s: string, which: Counting) {
    Depth(s, which) == 0 && forall m :: 0 <= m <= |s| ==> 0 <= Depth(s[..m], which)
  }

  lemma NestedAppends(a: string, b: string, which: Counting)
    requires Nested(a, which) && Nested(b, which)
    ensures Nested(a + b, which)
  {
    DepthAdds(a, b, which);
    forall m | 0 <= m <= |a + b| ensures 0 <= Depth((a + b)[..m], which) {
      if m <= |a| {
        assert (a + b)[..m] == a[..m];
      } else {
        assert (a + b)[..m] == a + b[..m - |a|];
        DepthAdds(a, b[..m - |a|], which);
      }
    }
  }

  lemma {:induction false} UnbracketedNests(s: string, which: Counting)
    requires forall k :: 0 <= k < |s| ==> Delta(s[k], which) == 0
    ensures Nested(s, which)
    decreases |s|
  {
    if s != [] {
      var init := s[..|s| - 1];
      UnbracketedNests(init, which);
      assert forall m :: 0 <= m < |s| ==> s[..m] == init[..m];
      assert s[..|s|] == s;
    }
  }

  /** Between the braces of a wrapped text the depth stays positive. */
  lemma Wrapped(a: string, which: Counting)
    requires Nested(a, which)
    ensures Nested("{" + a + "}", which)
    ensures forall m :: 0 < m < |"{" + a + "}"| ==> 0 < Depth(("{" + a + "}")[..m], which)
  {
    var s := "{" + a + "}";
    assert Depth("{", which) == 1 && Depth("}", which) == -1 by {
      assert "{"[..0] == [] && "}"[..0] == [];
    }
    DepthAdds("{", a, which);
    DepthAdds("{" + a, "}", which);
    forall m | 0 < m < |s| ensures 0 < Depth(s[..m], which) {
      assert s[..m] == "{" + a[..m - 1];
      DepthAdds("{", a[..m - 1], which);
    }
    assert s[..|s|] == s && s[..0] == [];
  }

  ghost predicate AllNested(es: seq<Entry>, which: Counting) {
    forall k :: 0 <= k < |es| ==> Nested(es[k].value, which)
  }

  lemma TextNests(e: Entry, which: Counting)
    requires Good(e) && Nested(e.value, which)
    ensures Nested(Text(e), which)
  {
    UnbracketedNests(Head(e) + ":" + e.afterColon, which);
    UnbracketedNests(e.trail, which);
    NestedAppends(Head(e) + ":" + e.afterColon, e.value, which);
    NestedAppends(Head(e) + ":" + e.afterColon + e.value, e.trail, which);
    assert Text(e) == Head(e) + ":" + e.afterColon + e.value + e.trail;
  }

  lemma {:induction false} InnerNests(es: seq<Entry>, trailing: Option<string>, which: Counting)
    requires AllGood(es) && AllNested(es, which) && BlankTrailing(trailing)
    ensures Nested(Inner(es, trailing), which)
    decreases |es|
  {
    if es == [] {
      UnbracketedNests(Inner(es, trailing), which);
    } else {
      TextNests(es[0], which);
      if |es| > 1 || trailing.Some? {
        InnerNests(es[1..], trailing, which);
        UnbracketedNests(",", which);
        NestedAppends(Text(es[0]), ",", which);
        NestedAppends(Text(es[0]) + ",", Inner(es[1..], trailing), which);
      }
    }
  }

  /** A written literal of nested values is itself a good, nested value, so literals compose. */
  lemma LiteralIsGoodValue(es: seq<Entry>, trailing: Option<string>)
    requires AllGood(es) && AllNested(es, Brackets) && AllNested(es, Braces) && BlankTrailing(trailing)
    ensures GoodValue(Literal(es, trailing)) && Nested(Literal(es, trailing), Brackets)
      && Nested(Literal(es, trailing), Braces)
  {
    InnerNests(es, trailing, Brackets);
    InnerNests(es, trailing, Braces);
    Wrapped(Inner(es, trailing), Brackets);
    Wrapped(Inner(es, trailing), Braces);
    var s := Literal(es, trailing);
    forall k | 0 <= k < |s| ensures !TopAt(s, ',', k) {
      if k == 0 { assert s[0] == '{'; }
    }
  }

  /** The check on the entries that were read. */
  predicate ScopeInside(top: map<string, string>) {
    && "document_ids" in top && "business_input" in top && "report_scope" !in top
    && Braced(Strip(top["business_input"], IsSpace))
    && "report_scope" in ObjectEntries(Strip(top["business_input"], IsSpace))
  }

  /** The check on a request body expression. */
  ghost predicate SendsScope(body: string) {
    var j := Opening(body);
    j.Some? && exists literal :: ShortestBalanced(body, j.value, literal) && ScopeInside(ObjectEntries(literal))
  }

  lemma BalancesIfBalanced(body: string, j: nat)
    ensures (exists literal :: ShortestBalanced(body, j, literal)) ==> !NeverBalances(body, j)
  {
    if literal :| ShortestBalanced(body, j, literal) {
      assert Depth(body[j..j + |literal|], Braces) == 0;
    }
  }

  lemma ShortestIsUnique(body: string, j: nat, a: string, b: string)
    requires ShortestBalanced(body, j, a) && ShortestBalanced(body, j, b)
    ensures a == b
  {
    assert Depth(body[j..j + |a|], Braces) == 0 && Depth(body[j..j + |b|], Braces) == 0;
  }

  lemma ExtractedDecides(body: string, literal: string)
    requires Opening(body).Some? && ShortestBalanced(body, Opening(body).value, literal)
    ensures SendsScope(body) <==> ScopeInside(ObjectEntries(literal))
  {
    forall other | ShortestBalanced(body, Opening(body).value, other) ensures other == literal {
      ShortestIsUnique(body, Opening(body).value, other, literal);
    }
  }

  /** workflow_sends_report_scope_in_business_input, on the request body expression. */
  method SendsReportScope(body: string) returns (sends: bool)
    ensures sends <==> SendsScope(body)
  {
    var obj := ExtractStringifyObject(body);
    if obj.None? {
      if Opening(body).Some? {
        BalancesIfBalanced(body, Opening(body).value);
      }
      return false;
    }
    ExtractedDecides(body, obj.value);
    var top := ReadEntries(obj.value);
    if "document_ids" !in top || "business_input" !in top {
      return false;
    }
    if "report_scope" in top {
      return false;
    }
    var business := Strip(top["business_input"], IsSpace);
    if !Braced(business) {
      return false;
    }
    var inside := ReadEntries(business);
    return "report_scope" in inside;
  }

  /** A literal written after the first marker is what the extractor finds. */
  lemma LiteralIsExtracted(before: string, gap: string, es: seq<Entry>, trailing: Option<string>, after: string)
    requires AllGood(es) && AllNested(es, Braces) && BlankTrailing(trailing)
    requires Find(before + MARKER + gap + Literal(es, trailing) + after, MARKER, 0) == Some(|before|)
    requires '{' !in gap
    ensures var body := before + MARKER + gap + Literal(es, trailing) + after;
      Opening(body) == Some(|before + MARKER + gap|)
        && ShortestBalanced(body, |before + MARKER + gap|, Literal(es, trailing))
  {
    InnerNests(es, trailing, Braces);
    BraceIsFound(before + MARKER + gap + Literal(es, trailing) + after, before, gap);
    WrappedIsShortest(before + MARKER + gap, Inner(es, trailing), after);
  }

  lemma BraceIsFound(body: string, before: string, gap: string)
    requires before + MARKER + gap + "{" <= body && '{' !in gap && Find(body, MARKER, 0) == Some(|before|)
    ensures Opening(body) == Some(|before + MARKER + gap|)
  {
    var from, j := |before + MARKER|, |before + MARKER + gap|;
    assert OccursAt(body, "{", j);
    forall k | from <= k < j ensures !OccursAt(body, "{", k) {
      assert body[k] == (before + MARKER + gap)[k] == gap[k - from] && gap[k - from] in gap;
      assert body[k..k + 1] == [body[k]];
    }
  }

  lemma WrappedIsShortest(before: string, inner: string, after: string)
    requires Nested(inner, Braces)
    ensures ShortestBalanced(before + ("{" + inner + "}") + after, |before|, "{" + inner + "}")
  {
    Wrapped(inner, Braces);
    var literal := "{" + inner + "}";
    var body, j := before + literal + after, |before|;
    assert body[j..j + |literal|] == literal;
    forall m | j < m < j + |literal| ensures Depth(body[j..m], Braces) != 0 {
      assert body[j..m] == literal[..m - j];
    }
  }

  lemma WrittenNames(es: seq<Entry>, trailing: Option<string>)
    requires AllGood(es) && BlankTrailing(trailing)
    ensures ObjectEntries(Literal(es, trailing)) == Dictionary(es)
    ensures Strip(Literal(es, trailing), IsSpace) == Literal(es, trailing)
  {
    var literal := Literal(es, trailing);
    assert [] + literal + [] == literal;
    ReadUndoesWrite(es, trailing, [], []);
    StripPadded([], literal, [], IsSpace);
  }

  /** The check on a literal that writes an object as its business input. */
  lemma ScopeOfLiteral(top: seq<Entry>, trailing: Option<string>, business: nat, inside: seq<Entry>,
    inner: Option<string>)
    requires AllGood(top) && AllGood(inside) && BlankTrailing(trailing) && BlankTrailing(inner) && Distinct(top)
    requires business < |top| && top[business].key == "business_input" && top[business].value == Literal(inside, inner)
    ensures ScopeInside(ObjectEntries(Literal(top, trailing))) <==>
      Names(top, "document_ids") && !Names(top, "report_scope") && Names(inside, "report_scope")
  {
    WrittenNames(top, trailing);
    DictionaryHoldsAll(top);
    WrittenNames(inside, inner);
    DictionaryHoldsAll(inside);
    assert Dictionary(top)["business_input"] == Literal(inside, inner);
  }

  /** The whole check, end to end: for a body that writes its literal after the first marker
      and an object as its business input, it answers true exactly when the document ids are
      sent and the report scope is inside the business input and not beside it. */
  lemma ScopeTravelsInside(before: string, gap: string, top: seq<Entry>, trailing: Option<string>, after: string,
                           business: nat, inside: seq<Entry>, inner: Option<string>)
    requires AllGood(top) && AllGood(inside) && BlankTrailing(trailing) && BlankTrailing(inner) && Distinct(top)
    requires business < |top| && top[business].key == "business_input" && top[business].value == Literal(inside, inner)
    requires AllNested(top, Braces) && '{' !in gap
    requires
      Find(before + "JSON.stringify(" + gap + Literal(top, trailing) + after, "JSON.stringify(", 0) == Some(|before|)
    ensures SendsScope(before + "JSON.stringify(" + gap + Literal(top, trailing) + after) <==>
      Names(top, "document_ids") && !Names(top, "report_scope") && Names(inside, "report_scope")
  {
    LiteralIsExtracted(before, gap, top, trailing, after);
    ExtractedDecides(before + MARKER + gap + Literal(top, trailing) + after, Literal(top, trailing));
    ScopeOfLiteral(top, trailing, business, inside, inner);
  }
}
