/**
 * The story-file sanitiser script: validating and rewriting scene and choice ids over the
 * character class `[A-Za-z0-9_]`, and replacing typographic characters in prompts and
 * labels. A story file is a list of scene dictionaries; a dictionary entry is missing, a
 * string, or some other JSON value.
 */
module StorySanitizer {
  import opened Wrappers

  datatype PyValue = Missing | Str(s: string) | NonStr

  datatype PyChoice = PyChoice(id: PyValue, labelValue: PyValue, nextId: PyValue)

  /** `choices` is `None` when the key is absent. */
  datatype PyScene = PyScene(id: PyValue, prompt: PyValue, choices: Option<seq<PyChoice>>)

  /** `scene.get('choices', [])`. */
  function ChoicesOf(scene: PyScene): (cs: seq<PyChoice>)
    ensures scene.choices.None? ==> cs == []
    ensures scene.choices.Some? ==> cs == scene.choices.value
  {
    if scene.choices.Some? then scene.choices.value else []
  }

  // ---------------------------------------------------------------- ids

  /** The character class `[A-Za-z0-9_]`. */
  predicate IsIdChar(c: char) {
    'A' <= c <= 'Z' || 'a' <= c <= 'z' || '0' <= c <= '9' || c == '_'
  }

  predicate AllIdChars(s: string) {
    forall i :: 0 <= i < |s| ==> IsIdChar(s[i])
  }

  /**
   * `ID_RE.match(s)` for `^[A-Za-z0-9_]+$`: one or more allowed characters, where `$` also
   * matches just before a single newline that ends the string.
   */
  predicate IdMatches(s: string) {
    (|s| > 0 && AllIdChars(s)) ||
    (|s| > 1 && s[|s| - 1] == '\n' && AllIdChars(s[..|s| - 1]))
  }

  /** The mode argument; any value other than `underscore` removes characters. */
  const Underscore := "underscore"

  /** What `NON_ALNUM_RE.sub` puts in place of one character. */
  function Piece(c: char, mode: string): (r: string)
    ensures IsIdChar(c) ==> r == [c]
    ensures !IsIdChar(c) && mode == Underscore ==> r == "_"
    ensures !IsIdChar(c) && mode != Underscore ==> r == ""
  {
    if IsIdChar(c) then [c] else if mode == Underscore then "_" else ""
  }

  /** `sanitize_id`. */
  function SanitizeId(s: string, mode: string): (r: string)
    ensures AllIdChars(r)
    ensures mode == Underscore ==> |r| == |s|
    ensures mode == Underscore ==> forall i :: 0 <= i < |s| ==> r[i] == (if IsIdChar(s[i]) then s[i] else '_')
    ensures mode != Underscore ==> |r| <= |s|
    ensures AllIdChars(s) ==> r == s
  {
    if s == [] then [] else Piece(s[0], mode) + SanitizeId(s[1..], mode)
  }

  /** Sanitising works character by character: it distributes over concatenation. */
  lemma {:induction false} SanitizeIdConcat(a: string, b: string, mode: string)
    ensures SanitizeId(a + b, mode) == SanitizeId(a, mode) + SanitizeId(b, mode)
    decreases |a|
  {
    if a == [] {
      assert a + b == b;
    } else {
      assert (a + b)[1..] == a[1..] + b;
      SanitizeIdConcat(a[1..], b, mode);
    }
  }

  /** In remove mode exactly the allowed characters are kept, in order. */
  lemma {:induction false} RemoveKeepsAllowed(s: string, mode: string)
    requires mode != Underscore
    ensures SanitizeId(s, mode) == KeptChars(s)
    decreases |s|
  {
    if s != [] {
      RemoveKeepsAllowed(s[1..], mode);
    }
  }

  /** The allowed characters of `s`, in order. */
  function KeptChars(s: string): (r: string)
    ensures AllIdChars(r) && |r| <= |s|
  {
    if s == [] then [] else (if IsIdChar(s[0]) then [s[0]] else []) + KeptChars(s[1..])
  }

  lemma SanitizeIdIdempotent(s: string, mode: string)
    ensures SanitizeId(SanitizeId(s, mode), mode) == SanitizeId(s, mode)
  {
  }

  /** A non-empty id sanitised in underscore mode passes `ID_RE`. */
  lemma UnderscoreIdMatches(s: string)
    requires s != []
    ensures IdMatches(SanitizeId(s, Underscore))
  {
  }

  // ---------------------------------------------------------------- find_ids

  datatype IdKind = SceneIdKind | ChoiceIdKind
  datatype Location = SceneAt(i: nat) | ChoiceAt(i: nat, j: nat)
  datatype Issue = Issue(kind: IdKind, location: Location, value: string)

  predicate BadId(v: PyValue) {
    v.Str? && !IdMatches(v.s)
  }

  /** The issue for scene `i`'s own id. */
  function SceneIdIssue(scene: PyScene, i: nat): seq<Issue> {
    if BadId(scene.id) then [Issue(SceneIdKind, SceneAt(i), scene.id.s)] else []
  }

  /** The issues for the first `m` choices of scene `i`. */
  function ChoiceIssues(cs: seq<PyChoice>, i: nat, m: nat): seq<Issue>
    requires m <= |cs|
  {
    if m == 0 then []
    else ChoiceIssues(cs, i, m - 1) +
         (if BadId(cs[m - 1].id) then [Issue(ChoiceIdKind, ChoiceAt(i, m - 1), cs[m - 1].id.s)] else [])
  }

  /** The issues for the first `n` scenes, scene by scene, each scene's id before its choices. */
  function Issues(data: seq<PyScene>, n: nat): seq<Issue>
    requires n <= |data|
  {
    if n == 0 then []
    else Issues(data, n - 1) + SceneIdIssue(data[n - 1], n - 1) +
         ChoiceIssues(ChoicesOf(data[n - 1]), n - 1, |ChoicesOf(data[n - 1])|)
  }

  /** `find_ids`. */
  method FindIds(data: seq<PyScene>) returns (issues: seq<Issue>)
    ensures issues == Issues(data, |data|)
  {
    issues := [];
    for i := 0 to |data|
      invariant issues == Issues(data, i)
    {
      var scene := data[i];
      if BadId(scene.id) {
        issues := issues + [Issue(SceneIdKind, SceneAt(i), scene.id.s)];
      }
      var cs := ChoicesOf(scene);
      for j := 0 to |cs|
        invariant issues == Issues(data, i) + SceneIdIssue(scene, i) + ChoiceIssues(cs, i, j)
      {
        var c := cs[j];
        if BadId(c.id) {
          issues := issues + [Issue(ChoiceIdKind, ChoiceAt(i, j), c.id.s)];
        }
      }
    }
  }

  lemma {:induction false} ChoiceIssueIff(cs: seq<PyChoice>, i: nat, m: nat, j: nat, v: string)
    requires m <= |cs|
    ensures Issue(ChoiceIdKind, ChoiceAt(i, j), v) in ChoiceIssues(cs, i, m) <==>
            j < m && cs[j].id == Str(v) && !IdMatches(v)
    ensures forall x :: x in ChoiceIssues(cs, i, m) ==> x.kind == ChoiceIdKind && x.location.ChoiceAt? && x.location.i == i
  {
    if m > 0 {
      ChoiceIssueIff(cs, i, m - 1, j, v);
    }
  }

  /** A scene id is reported exactly when it is a string that fails `ID_RE`. */
  lemma {:induction false} SceneIssueIff(data: seq<PyScene>, n: nat, i: nat, v: string)
    requires n <= |data|
    ensures Issue(SceneIdKind, SceneAt(i), v) in Issues(data, n) <==>
            i < n && data[i].id == Str(v) && !IdMatches(v)
  {
    if n > 0 {
      SceneIssueIff(data, n - 1, i, v);
      var cs := ChoicesOf(data[n - 1]);
      ChoiceIssueIff(cs, n - 1, |cs|, 0, v);
    }
  }

  /** A choice id is reported exactly when it is a string that fails `ID_RE`. */
  lemma {:induction false} ChoiceIdIssueIff(data: seq<PyScene>, n: nat, i: nat, j: nat, v: string)
    requires n <= |data|
    ensures Issue(ChoiceIdKind, ChoiceAt(i, j), v) in Issues(data, n) <==>
            i < n && j < |ChoicesOf(data[i])| && ChoicesOf(data[i])[j].id == Str(v) && !IdMatches(v)
  {
    if n > 0 {
      ChoiceIdIssueIff(data, n - 1, i, j, v);
      var cs := ChoicesOf(data[n - 1]);
      ChoiceIssueIff(cs, n - 1, |cs|, j, v);
    }
  }

  // ---------------------------------------------------------------- apply_sanitization

  function IdSet(v: PyValue): set<string> {
    if v.Str? then {v.s} else {}
  }

  /** The string ids of the first `n` scenes. */
  function SceneIds(data: seq<PyScene>, n: nat): set<string>
    requires n <= |data|
  {
    if n == 0 then {} else SceneIds(data, n - 1) + IdSet(data[n - 1].id)
  }

  /** The string ids of the first `m` choices. */
  function ChoiceIdsIn(cs: seq<PyChoice>, m: nat): set<string>
    requires m <= |cs|
  {
    if m == 0 then {} else ChoiceIdsIn(cs, m - 1) + IdSet(cs[m - 1].id)
  }

  /** The string choice ids of the first `n` scenes. */
  function ChoiceIds(data: seq<PyScene>, n: nat): set<string>
    requires n <= |data|
  {
    if n == 0 then {} else ChoiceIds(data, n - 1) + ChoiceIdsIn(ChoicesOf(data[n - 1]), |ChoicesOf(data[n - 1])|)
  }

  function AllIds(data: seq<PyScene>): set<string> {
    SceneIds(data, |data|) + ChoiceIds(data, |data|)
  }

  /** The mapping over a set of ids: each id that sanitising changes, to its sanitised form. */
  function Changed(ids: set<string>, mode: string): (m: map<string, string>)
    ensures forall k :: k in m <==> k in ids && SanitizeId(k, mode) != k
    ensures forall k :: k in m ==> m[k] == SanitizeId(k, mode)
  {
    map k | k in ids && SanitizeId(k, mode) != k :: SanitizeId(k, mode)
  }

  lemma ChangedAdd(ids: set<string>, v: PyValue, mode: string)
    ensures v.Str? && SanitizeId(v.s, mode) != v.s ==>
              Changed(ids + IdSet(v), mode) == Changed(ids, mode)[v.s := SanitizeId(v.s, mode)]
    ensures !(v.Str? && SanitizeId(v.s, mode) != v.s) ==> Changed(ids + IdSet(v), mode) == Changed(ids, mode)
  {
  }

  function SanitizeValue(v: PyValue, mode: string): (r: PyValue)
    ensures v.Str? ==> r == Str(SanitizeId(v.s, mode))
    ensures !v.Str? ==> r == v
  {
    if v.Str? then Str(SanitizeId(v.s, mode)) else v
  }

  function SanitizeChoice(c: PyChoice, mode: string): (r: PyChoice)
    ensures r.labelValue == c.labelValue && r.nextId == c.nextId
    ensures r.id == SanitizeValue(c.id, mode)
  {
    c.(id := SanitizeValue(c.id, mode))
  }

  /** A scene with its id and its choices' ids sanitised and everything else as it was. */
  function SanitizeScene(scene: PyScene, mode: string): (r: PyScene)
    ensures r.id == SanitizeValue(scene.id, mode) && r.prompt == scene.prompt
    ensures r.choices.Some? <==> scene.choices.Some?
    ensures |ChoicesOf(r)| == |ChoicesOf(scene)|
    ensures forall j :: 0 <= j < |ChoicesOf(r)| ==> ChoicesOf(r)[j] == SanitizeChoice(ChoicesOf(scene)[j], mode)
  {
    match scene.choices
    case None => scene.(id := SanitizeValue(scene.id, mode))
    case Some(cs) =>
      scene.(id := SanitizeValue(scene.id, mode),
             choices := Some(seq(|cs|, j requires 0 <= j < |cs| => SanitizeChoice(cs[j], mode))))
  }

  lemma {:induction false} SceneIdIn(data: seq<PyScene>, n: nat, i: nat)
    requires i < n <= |data| && data[i].id.Str?
    ensures data[i].id.s in SceneIds(data, n)
  {
    if i < n - 1 {
      SceneIdIn(data, n - 1, i);
    }
  }

  lemma {:induction false} ChoiceIdIn(data: seq<PyScene>, n: nat, i: nat, j: nat)
    requires i < n <= |data| && j < |ChoicesOf(data[i])| && ChoicesOf(data[i])[j].id.Str?
    ensures ChoicesOf(data[i])[j].id.s in ChoiceIds(data, n)
  {
    if i < n - 1 {
      ChoiceIdIn(data, n - 1, i, j);
    } else {
      ChoiceIdInList(ChoicesOf(data[i]), |ChoicesOf(data[i])|, j);
    }
  }

  lemma {:induction false} ChoiceIdInList(cs: seq<PyChoice>, m: nat, j: nat)
    requires j < m <= |cs| && cs[j].id.Str?
    ensures cs[j].id.s in ChoiceIdsIn(cs, m)
  {
    if j < m - 1 {
      ChoiceIdInList(cs, m - 1, j);
    }
  }

  /** Looking an id of the file up in the mapping gives its sanitised form. */
  lemma Rewrites(ids: set<string>, v: PyValue, mode: string)
    requires v.Str? ==> v.s in ids
    ensures SanitizeValue(v, mode) == (if v.Str? && v.s in Changed(ids, mode) then Str(Changed(ids, mode)[v.s]) else v)
  {
  }

  /**
   * `apply_sanitization`: the mapping holds every string scene or choice id that sanitising
   * changes, and every such id in the file is replaced by its sanitised form in place.
   */
  method ApplySanitization(data: array<PyScene>, mode: string) returns (mapping: map<string, string>)
    modifies data
    ensures mapping == Changed(AllIds(old(data[..])), mode)
    ensures forall k :: 0 <= k < data.Length ==> data[k] == SanitizeScene(old(data[k]), mode)
  {
    ghost var d := data[..];
    mapping := CollectMapping(data, mode);
    for i := 0 to data.Length
      invariant forall k :: 0 <= k < i ==> data[k] == SanitizeScene(d[k], mode)
      invariant forall k :: i <= k < data.Length ==> data[k] == d[k]
    {
      var scene := RewriteScene(data[i], mapping, mode, d, i);
      data[i] := scene;
    }
  }

  /** The first two passes of `apply_sanitization`: scene ids, then choice ids, into the mapping. */
  method CollectMapping(data: array<PyScene>, mode: string) returns (mapping: map<string, string>)
    ensures mapping == Changed(AllIds(data[..]), mode)
  {
    ghost var d := data[..];
    ghost var ids: set<string> := {};
    mapping := map[];
    for i := 0 to data.Length
      invariant ids == SceneIds(d, i) && mapping == Changed(ids, mode)
    {
      var sid := data[i].id;
      ChangedAdd(ids, sid, mode);
      if sid.Str? {
        var sanitized := SanitizeId(sid.s, mode);
        if sanitized != sid.s {
          mapping := mapping[sid.s := sanitized];
        }
      }
      ids := ids + IdSet(sid);
    }
    for i := 0 to data.Length
      invariant ids == SceneIds(d, |d|) + ChoiceIds(d, i) && mapping == Changed(ids, mode)
    {
      mapping, ids := CollectChoiceIds(ChoicesOf(data[i]), mode, mapping, ids);
    }
  }

  /** The second pass of `apply_sanitization` over the choices of one scene. */
  method CollectChoiceIds(cs: seq<PyChoice>, mode: string, mapping0: map<string, string>, ghost ids0: set<string>)
    returns (mapping: map<string, string>, ghost ids: set<string>)
    requires mapping0 == Changed(ids0, mode)
    ensures ids == ids0 + ChoiceIdsIn(cs, |cs|)
    ensures mapping == Changed(ids0 + ChoiceIdsIn(cs, |cs|), mode)
  {
    mapping, ids := mapping0, ids0;
    for j := 0 to |cs|
      invariant ids == ids0 + ChoiceIdsIn(cs, j) && mapping == Changed(ids, mode)
    {
      var cid := cs[j].id;
      ChangedAdd(ids, cid, mode);
      if cid.Str? {
        var sanitized := SanitizeId(cid.s, mode);
        if sanitized != cid.s {
          mapping := mapping[cid.s := sanitized];
        }
      }
      ids := ids + IdSet(cid);
    }
  }

  /** The third pass of `apply_sanitization` on scene `i` of the file `d`. */
  method RewriteScene(scene: PyScene, mapping: map<string, string>, mode: string, ghost d: seq<PyScene>, ghost i: nat)
    returns (r: PyScene)
    requires i < |d| && scene == d[i]
    requires mapping == Changed(AllIds(d), mode)
    ensures r == SanitizeScene(scene, mode)
  {
    var sid := scene.id;
    if sid.Str? {
      SceneIdIn(d, |d|, i);
    }
    Rewrites(AllIds(d), sid, mode);
    var newId := sid;
    if sid.Str? && sid.s in mapping {
      newId := Str(mapping[sid.s]);
    }
    var cs := ChoicesOf(scene);
    var newChoices: seq<PyChoice> := [];
    for j := 0 to |cs|
      invariant |newChoices| == j
      invariant forall k :: 0 <= k < j ==> newChoices[k] == SanitizeChoice(cs[k], mode)
    {
      var c := cs[j];
      if c.id.Str? {
        ChoiceIdIn(d, |d|, i, j);
      }
      Rewrites(AllIds(d), c.id, mode);
      if c.id.Str? && c.id.s in mapping {
        c := c.(id := Str(mapping[c.id.s]));
      }
      newChoices := newChoices + [c];
    }
    if scene.choices.Some? {
      assert newChoices == seq(|cs|, j requires 0 <= j < |cs| => SanitizeChoice(cs[j], mode));
      r := scene.(id := newId, choices := Some(newChoices));
    } else {
      r := scene.(id := newId);
    }
  }

  /** Ids that were equal stay equal, so a choice id that named a scene still names it. */
  lemma LinksPreserved(a: PyScene, b: PyScene, j: nat, mode: string)
    requires j < |ChoicesOf(b)| && ChoicesOf(b)[j].id == a.id
    ensures ChoicesOf(SanitizeScene(b, mode))[j].id == SanitizeScene(a, mode).id
    ensures ChoicesOf(SanitizeScene(b, mode))[j].nextId == ChoicesOf(b)[j].nextId
  {
  }

  /** After sanitising in underscore mode, checking the file reports no non-empty id. */
  lemma {:induction false} NoIssuesAfterUnderscore(data: seq<PyScene>, n: nat, x: Issue)
    requires n <= |data|
    ensures var clean := seq(|data|, k requires 0 <= k < |data| => SanitizeScene(data[k], Underscore));
            x in Issues(clean, n) ==> x.value == []
  {
    var clean := seq(|data|, k requires 0 <= k < |data| => SanitizeScene(data[k], Underscore));
    if x in Issues(clean, n) {
      match x.location
      case SceneAt(i) =>
        SceneIssueIff(clean, n, i, x.value);
        ChoiceIdIssueIff(clean, n, i, 0, x.value);
        if x.kind == ChoiceIdKind {
          ChoiceKindAt(clean, n, x);
        }
      case ChoiceAt(i, j) =>
        ChoiceIdIssueIff(clean, n, i, j, x.value);
        if x.kind == SceneIdKind {
          SceneKindAt(clean, n, x);
        }
    }
  }

  lemma {:induction false} ChoiceKindAt(data: seq<PyScene>, n: nat, x: Issue)
    requires n <= |data| && x in Issues(data, n) && x.kind == ChoiceIdKind
    ensures x.location.ChoiceAt?
  {
    if n > 0 {
      var cs := ChoicesOf(data[n - 1]);
      ChoiceIssueIff(cs, n - 1, |cs|, 0, x.value);
      if x in Issues(data, n - 1) {
        ChoiceKindAt(data, n - 1, x);
      }
    }
  }

  lemma {:induction false} SceneKindAt(data: seq<PyScene>, n: nat, x: Issue)
    requires n <= |data| && x in Issues(data, n) && x.kind == SceneIdKind
    ensures x.location.SceneAt?
  {
    if n > 0 {
      var cs := ChoicesOf(data[n - 1]);
      ChoiceIssueIff(cs, n - 1, |cs|, 0, x.value);
      if x in Issues(data, n - 1) {
        SceneKindAt(data, n - 1, x);
      }
    }
  }

  // ---------------------------------------------------------------- sanitize_ascii

  /** `REPLACEMENTS`, in the dictionary's insertion order; every key is a single character. */
  const Replacements: seq<(char, string)> := [
    ('\U{2010}', "-"), ('\U{2011}', "-"), ('\U{2012}', "-"), ('\U{2013}', "-"),
    ('\U{2014}', "-"), ('\U{2015}', "-"), ('\U{2212}', "-"),
    ('\U{2018}', "'"), ('\U{2019}', "'"), ('\U{201B}', "'"), ('\U{2032}', "'"),
    ('\U{201C}', "\""), ('\U{201D}', "\""), ('\U{201F}', "\""), ('\U{2033}', "\""),
    ('\U{2026}', "..."),
    ('\U{00A0}', " "), ('\U{2000}', " "), ('\U{2001}', " "), ('\U{2002}', " "),
    ('\U{2003}', " "), ('\U{2004}', " "), ('\U{2005}', " "), ('\U{2006}', " "),
    ('\U{2007}', " "), ('\U{2008}', " "), ('\U{2009}', " "), ('\U{200A}', " "),
    ('\U{202F}', " "), ('\U{205F}', " "), ('\U{3000}', " "),
    ('\U{00AD}', ""), ('\U{200B}', ""), ('\U{200C}', ""), ('\U{200D}', ""),
    ('\U{2060}', ""), ('\U{FEFF}', "")
  ]

  predicate IsAscii(s: string) {
    forall i :: 0 <= i < |s| ==> s[i] as int < 128
  }

  /** A replacement table whose keys lie outside ASCII and whose replacements are ASCII. */
  predicate WellShaped(table: seq<(char, string)>) {
    forall k :: 0 <= k < |table| ==> table[k].0 as int >= 128 && IsAscii(table[k].1)
  }

  lemma TableShape()
    ensures WellShaped(Replacements)
  {
  }

  lemma NotInAscii(x: char, v: string)
    requires x as int >= 128 && IsAscii(v)
    ensures x !in v
  {
  }

  /** `str.replace` of one character by a string. */
  function ReplaceAll(s: string, c: char, v: string): (r: string)
    ensures c !in v ==> c !in r
    ensures forall x :: x in r ==> (x in s && x != c) || x in v
    ensures c !in s ==> r == s
  {
    if s == [] then [] else (if s[0] == c then v else [s[0]]) + ReplaceAll(s[1..], c, v)
  }

  /** The first `n` entries of a table applied in order. */
  function Replaced(s: string, table: seq<(char, string)>, n: nat): string
    requires n <= |table|
  {
    if n == 0 then s else ReplaceAll(Replaced(s, table, n - 1), table[n - 1].0, table[n - 1].1)
  }

  /** `REPLACEMENTS` applied to `s`. */
  function Cleaned(s: string): string {
    Replaced(s, Replacements, |Replacements|)
  }

  lemma {:induction false} NoKeyRemainsAfter(s: string, table: seq<(char, string)>, n: nat)
    requires n <= |table| && WellShaped(table)
    ensures forall k :: 0 <= k < n ==> table[k].0 !in Replaced(s, table, n)
  {
    if n > 0 {
      NoKeyRemainsAfter(s, table, n - 1);
      var v := table[n - 1].1;
      forall k | 0 <= k < n
        ensures table[k].0 !in Replaced(s, table, n)
      {
        NotInAscii(table[k].0, v);
      }
    }
  }

  /** No key of the table is left in cleaned text, because every replacement is ASCII. */
  lemma NoKeyRemains(s: string)
    ensures forall k :: 0 <= k < |Replacements| ==> Replacements[k].0 !in Cleaned(s)
  {
    TableShape();
    NoKeyRemainsAfter(s, Replacements, |Replacements|);
  }

  lemma {:induction false} AsciiUnchangedAfter(s: string, table: seq<(char, string)>, n: nat)
    requires n <= |table| && WellShaped(table) && IsAscii(s)
    ensures Replaced(s, table, n) == s
  {
    if n > 0 {
      AsciiUnchangedAfter(s, table, n - 1);
      NotInAscii(table[n - 1].0, s);
    }
  }

  /** `sanitize_ascii`: a non-string is returned as it is; a string is NFC-normalised, then cleaned. */
  method SanitizeAscii(v: PyValue, nfc: string -> string) returns (r: PyValue)
    ensures !v.Str? ==> r == v
    ensures v.Str? ==> r == Str(Cleaned(nfc(v.s)))
  {
    if !v.Str? {
      return v;
    }
    var s := nfc(v.s);
    for k := 0 to |Replacements|
      invariant s == Replaced(nfc(v.s), Replacements, k)
    {
      var key := Replacements[k].0;
      if key in s {
        s := ReplaceAll(s, key, Replacements[k].1);
      }
    }
    return Str(s);
  }

  /**
   * Pure-ASCII text comes back unchanged, given that normalisation leaves it alone (NFC
   * never changes ASCII text).
   */
  lemma AsciiTextUnchanged(s: string, nfc: string -> string)
    requires IsAscii(s) && nfc(s) == s
    ensures Cleaned(nfc(s)) == s
  {
    TableShape();
    AsciiUnchangedAfter(s, Replacements, |Replacements|);
  }

  // ---------------------------------------------------------------- apply_text_sanitization

  function CleanValue(v: PyValue, nfc: string -> string): PyValue {
    if v.Str? then Str(Cleaned(nfc(v.s))) else v
  }

  /** A scene with its string prompt and its choices' string labels cleaned, and nothing else changed. */
  function TextSanitized(scene: PyScene, nfc: string -> string): (r: PyScene)
    ensures r.id == scene.id && r.prompt == CleanValue(scene.prompt, nfc)
    ensures r.choices.Some? <==> scene.choices.Some?
    ensures |ChoicesOf(r)| == |ChoicesOf(scene)|
    ensures forall j :: 0 <= j < |ChoicesOf(r)| ==>
              ChoicesOf(r)[j] == ChoicesOf(scene)[j].(labelValue := CleanValue(ChoicesOf(scene)[j].labelValue, nfc))
  {
    match scene.choices
    case None => scene.(prompt := CleanValue(scene.prompt, nfc))
    case Some(cs) =>
      scene.(prompt := CleanValue(scene.prompt, nfc),
             choices := Some(seq(|cs|, j requires 0 <= j < |cs| => cs[j].(labelValue := CleanValue(cs[j].labelValue, nfc)))))
  }

  /** `apply_text_sanitization`: cleans the string prompts and labels of every scene in place. */
  method ApplyTextSanitization(data: array<PyScene>, nfc: string -> string)
    modifies data
    ensures forall k :: 0 <= k < data.Length ==> data[k] == TextSanitized(old(data[k]), nfc)
  {
    for i := 0 to data.Length
      invariant forall k :: 0 <= k < i ==> data[k] == TextSanitized(old(data[k]), nfc)
      invariant forall k :: i <= k < data.Length ==> data[k] == old(data[k])
    {
      var scene := CleanScene(data[i], nfc);
      data[i] := scene;
    }
  }

  /** The body of `apply_text_sanitization`'s loop for one scene. */
  method CleanScene(scene: PyScene, nfc: string -> string) returns (r: PyScene)
    ensures r == TextSanitized(scene, nfc)
  {
    r := scene;
    if r.prompt.Str? {
      var p := SanitizeAscii(r.prompt, nfc);
      r := r.(prompt := p);
    }
    if r.choices.Some? {
      var cs := r.choices.value;
      var cleaned: seq<PyChoice> := [];
      for j := 0 to |cs|
        invariant |cleaned| == j
        invariant forall k :: 0 <= k < j ==> cleaned[k] == cs[k].(labelValue := CleanValue(cs[k].labelValue, nfc))
      {
        var c := cs[j];
        if c.labelValue.Str? {
          var l := SanitizeAscii(c.labelValue, nfc);
          c := c.(labelValue := l);
        }
        cleaned := cleaned + [c];
      }
      assert cleaned == seq(|cs|, j requires 0 <= j < |cs| => cs[j].(labelValue := CleanValue(cs[j].labelValue, nfc)));
      r := r.(choices := Some(cleaned));
    }
  }
}
