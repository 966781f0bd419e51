/**
 * `adMacroReplacement`: substituting run-time values for `{...}` macros in an
 * ad server URL. Ambient inputs (the clock, randomness, the page's location and
 * referrer, the page variables reachable from `window`) and `encodeURIComponent`
 * are parameters.
 */
module Macros {
  import opened Wrappers

  /** A JavaScript value as far as macros care; `Num` and `Obj` carry their `String(value)` rendering. */
  datatype Value = Undefined | Null | Bool(b: bool) | Num(text: string) | Str(s: string) | Obj(text: string)

  /** `String(value)`. */
  function Stringify(v: Value): string
  {
    match v
    case Undefined => "undefined"
    case Null => "null"
    case Bool(b) => if b then "true" else "false"
    case Num(t) => t
    case Str(s) => s
    case Obj(t) => t
  }

  /** `uriEncodeIfNeeded`: the value itself, or `encodeURIComponent(value)` when asked to encode. */
  function UriEncodeIfNeeded(v: Value, uriEncode: bool, encode: string -> string): (r: Value)
    ensures !uriEncode ==> r == v
    ensures uriEncode ==> r == Str(encode(Stringify(v)))
  {
    if uriEncode then Str(encode(Stringify(v))) else v
  }

  /** The separator `Array.prototype.join` makes of its argument: `undefined` means `","`. */
  function JoinSeparator(v: Value): string
  {
    if v.Undefined? then "," else Stringify(v)
  }

  /** The `uriEncode` argument: absent means `false`, otherwise its truthiness. */
  function EncodeFlag(uriEncode: Option<bool>): bool
  {
    uriEncode.GetOr(false)
  }

  // ---------------------------------------------------------------------------
  // String split and join

  /** `k` occurs in `s` at position `j`. */
  predicate At(s: string, k: string, j: nat)
  {
    j + |k| <= |s| && s[j..j + |k|] == k
  }

  predicate Occurs(k: string, s: string)
  {
    exists j: nat | j <= |s| :: At(s, k, j)
  }

  /** The first position at which a non-empty `k` occurs in `s`. */
  function IndexOf(s: string, k: string): (r: Option<nat>)
    requires k != ""
    ensures r.Some? ==> At(s, k, r.value) && forall j: nat :: j < r.value ==> !At(s, k, j)
    ensures r.None? ==> forall j: nat :: !At(s, k, j)
    decreases |s|
  {
    if |s| < |k| then None
    else if s[..|k|] == k then Some(0)
    else
      var rest := IndexOf(s[1..], k);
      ShiftAt(s, k);
      assert !At(s, k, 0) by { assert s[0..|k|] == s[..|k|]; }
      if rest.Some? then Some(rest.value + 1) else None
  }

  lemma ShiftAt(s: string, k: string)
    requires s != ""
    ensures forall j: nat :: 0 < j ==> (At(s, k, j) <==> At(s[1..], k, j - 1))
  {
    forall j: nat | 0 < j
      ensures At(s, k, j) <==> At(s[1..], k, j - 1)
    {
      if j + |k| <= |s| {
        assert s[1..][j - 1..j - 1 + |k|] == s[j..j + |k|];
      }
    }
  }

  /** `s.split(k)`: an empty separator splits into characters, and `"".split("")` is empty. */
  function Split(s: string, k: string): (parts: seq<string>)
    ensures k != "" ==> |parts| >= 1
    decreases |s|
  {
    if k == "" then seq(|s|, i requires 0 <= i < |s| => [s[i]])
    else match IndexOf(s, k)
      case None => [s]
      case Some(i) => [s[..i]] + Split(s[i + |k|..], k)
  }

  /** `parts.join(sep)`. */
  function Join(parts: seq<string>, sep: string): (r: string)
    ensures |parts| == 0 ==> r == ""
    ensures |parts| > 0 ==> |parts[0]| <= |r| && r[..|parts[0]|] == parts[0]
    ensures |parts| > 1 ==> |parts[0]| + |sep| <= |r| && r[|parts[0]|..|parts[0]| + |sep|] == sep
    decreases |parts|
  {
    if |parts| == 0 then ""
    else if |parts| == 1 then parts[0]
    else parts[0] + sep + Join(parts[1..], sep)
  }

  /** Replacing every occurrence of `k` by `v` the way the replacement loop does. */
  function ReplaceAll(s: string, k: string, v: string): string
  {
    Join(Split(s, k), v)
  }

  lemma {:induction false} JoinChars(s: string)
    ensures Join(Split(s, ""), "") == s
    decreases |s|
  {
    var parts := Split(s, "");
    if |s| == 1 {
      assert parts == [[s[0]]] && s == [s[0]];
    } else if |s| > 1 {
      JoinChars(s[1..]);
      assert parts[1..] == Split(s[1..], "");
      assert s == [s[0]] + s[1..];
    }
  }

  lemma ThreeParts(s: string, i: nat, j: nat)
    requires i <= j <= |s|
    ensures s == s[..i] + s[i..j] + s[j..]
  {
    assert s[..j] == s[..i] + s[i..j];
    assert s == s[..j] + s[j..];
  }

  /** One step of a split by a non-empty key: the piece before the first occurrence, then the split of the rest. */
  lemma SplitStep(s: string, k: string, i: nat)
    requires k != "" && IndexOf(s, k) == Some(i)
    ensures Split(s, k) == [s[..i]] + Split(s[i + |k|..], k)
    ensures s == s[..i] + k + s[i + |k|..]
  {
    ThreeParts(s, i, i + |k|);
  }

  lemma JoinCons(x: string, rest: seq<string>, sep: string)
    requires |rest| >= 1
    ensures Join([x] + rest, sep) == x + sep + Join(rest, sep)
  {
    assert ([x] + rest)[1..] == rest;
  }

  lemma {:induction false} JoinSplitKey(s: string, k: string)
    requires k != ""
    ensures Join(Split(s, k), k) == s
    decreases |s|
  {
    var r := IndexOf(s, k);
    if r.Some? {
      var i := r.value;
      var tail := s[i + |k|..];
      SplitStep(s, k, i);
      JoinCons(s[..i], Split(tail, k), k);
      JoinSplitKey(tail, k);
    }
  }

  /** Splitting and joining back with the same separator gives the string back. */
  lemma JoinSplit(s: string, k: string)
    ensures Join(Split(s, k), k) == s
  {
    if k == "" {
      JoinChars(s);
    } else {
      JoinSplitKey(s, k);
    }
  }

  /** No piece of a split by a non-empty `k` contains `k`: every occurrence was cut out. */
  lemma {:induction false} SplitPiecesFree(s: string, k: string)
    requires k != ""
    ensures forall p :: p in Split(s, k) ==> !Occurs(k, p)
    decreases |s|
  {
    match IndexOf(s, k)
    case None =>
    case Some(i) =>
      SplitPiecesFree(s[i + |k|..], k);
      var head := s[..i];
      forall j: nat
        ensures !At(head, k, j)
      {
        if j + |k| <= |head| {
          assert head[j..j + |k|] == s[j..j + |k|];
          assert !At(s, k, j);
        }
      }
  }

  /** A string without the key is left as it was. */
  lemma ReplaceAbsent(s: string, k: string, v: string)
    requires !Occurs(k, s)
    ensures ReplaceAll(s, k, v) == s
  {
    assert k == "" ==> At(s, k, 0);
  }

  // ---------------------------------------------------------------------------
  // The macro table: a JavaScript object with string keys, in insertion order

  datatype Entry = Entry(key: string, value: Value)

  function Keys(d: seq<Entry>): seq<string>
  {
    seq(|d|, i requires 0 <= i < |d| => d[i].key)
  }

  function Lookup(d: seq<Entry>, k: string): Option<Value>
    decreases |d|
  {
    if d == [] then None else if d[0].key == k then Some(d[0].value) else Lookup(d[1..], k)
  }

  /** `object[k] = v`: an existing key keeps its place, a new key goes last. */
  function PutEntry(d: seq<Entry>, k: string, v: Value): (r: seq<Entry>)
    decreases |d|
  {
    if d == [] then [Entry(k, v)]
    else if d[0].key == k then [Entry(k, v)] + d[1..]
    else [d[0]] + PutEntry(d[1..], k, v)
  }

  lemma {:induction false} PutLookup(d: seq<Entry>, k: string, v: Value)
    ensures Lookup(PutEntry(d, k, v), k) == Some(v)
    ensures forall k' :: k' != k ==> Lookup(PutEntry(d, k, v), k') == Lookup(d, k')
    decreases |d|
  {
    if d != [] && d[0].key != k {
      PutLookup(d[1..], k, v);
      assert PutEntry(d, k, v) == [d[0]] + PutEntry(d[1..], k, v);
    }
  }

  lemma KeysCons(e: Entry, d: seq<Entry>)
    ensures Keys([e] + d) == [e.key] + Keys(d)
  {
  }

  /** An existing key keeps its place in the key order; a new key is appended. */
  lemma {:induction false} PutKeys(d: seq<Entry>, k: string, v: Value)
    ensures Keys(PutEntry(d, k, v)) == if k in Keys(d) then Keys(d) else Keys(d) + [k]
    decreases |d|
  {
    if d != [] {
      assert d == [d[0]] + d[1..];
      KeysCons(d[0], d[1..]);
      if d[0].key != k {
        PutKeys(d[1..], k, v);
        KeysCons(d[0], PutEntry(d[1..], k, v));
      } else {
        KeysCons(Entry(k, v), d[1..]);
      }
    }
  }

  /** The object the caller passes as `customMacros`, or a fresh `{}`; the plugin writes into it. */
  class MacroTable {
    var entries: seq<Entry>

    constructor (entries: seq<Entry>)
      ensures this.entries == entries
    {
      this.entries := entries;
    }

    method Put(k: string, v: Value)
      modifies this
      ensures entries == PutEntry(old(entries), k, v)
    {
      entries := PutEntry(entries, k, v);
    }
  }

  // ---------------------------------------------------------------------------
  // Static and custom-field macros

  /** `player.mediainfo`; `fieldSets` holds its truthy object-valued properties, by name, with their keys in order. */
  datatype MediaInfo = MediaInfo(id: Value, name: Value, description: Value, tags: Value,
                                 referenceId: Value, duration: Value, adKeys: Value,
                                 fieldSets: map<string, seq<Entry>>)

  /** Everything outside the string that the substitution reads. */
  datatype MacroEnv = MacroEnv(dataPlayer: Value, mediainfo: Option<MediaInfo>, playerDuration: Value,
                               timestamp: Value, referrer: string, href: string, random: Value,
                               pageVariable: string -> Value, encode: string -> string)

  function MediaField(mi: Option<MediaInfo>, f: MediaInfo -> Value): Value
  {
    if mi.Some? then f(mi.value) else Str("")
  }

  /** The static macros, in the order they are written. */
  function StaticMacros(env: MacroEnv): (r: seq<Entry>)
    ensures |r| == 13
    ensures env.mediainfo.None? ==> forall i :: 1 <= i <= 7 ==> r[i].value == Str("")
  {
    [Entry("{player.id}", env.dataPlayer),
     Entry("{mediainfo.id}", MediaField(env.mediainfo, (m: MediaInfo) => m.id)),
     Entry("{mediainfo.name}", MediaField(env.mediainfo, (m: MediaInfo) => m.name)),
     Entry("{mediainfo.description}", MediaField(env.mediainfo, (m: MediaInfo) => m.description)),
     Entry("{mediainfo.tags}", MediaField(env.mediainfo, (m: MediaInfo) => m.tags)),
     Entry("{mediainfo.reference_id}", MediaField(env.mediainfo, (m: MediaInfo) => m.referenceId)),
     Entry("{mediainfo.duration}", MediaField(env.mediainfo, (m: MediaInfo) => m.duration)),
     Entry("{mediainfo.ad_keys}", MediaField(env.mediainfo, (m: MediaInfo) => m.adKeys)),
     Entry("{player.duration}", env.playerDuration),
     Entry("{timestamp}", env.timestamp),
     Entry("{document.referrer}", Str(env.referrer)),
     Entry("{window.location.href}", Str(env.href)),
     Entry("{random}", env.random)]
  }

  /** Writing entries into the table one after another. */
  function PutAll(d: seq<Entry>, es: seq<Entry>): seq<Entry>
    decreases |es|
  {
    if es == [] then d else PutAll(PutEntry(d, es[0].key, es[0].value), es[1..])
  }

  /** After writing entries whose keys are distinct, each key holds its entry's value and every other key is unchanged. */
  lemma {:induction false} PutAllLookup(d: seq<Entry>, es: seq<Entry>)
    requires forall i, j :: 0 <= i < j < |es| ==> es[i].key != es[j].key
    ensures forall i :: 0 <= i < |es| ==> Lookup(PutAll(d, es), es[i].key) == Some(es[i].value)
    ensures forall k :: k !in Keys(es) ==> Lookup(PutAll(d, es), k) == Lookup(d, k)
    decreases |es|
  {
    if es != [] {
      var d1 := PutEntry(d, es[0].key, es[0].value);
      PutLookup(d, es[0].key, es[0].value);
      PutAllLookup(d1, es[1..]);
      assert Keys(es) == [es[0].key] + Keys(es[1..]);
      forall i | 0 <= i < |es|
        ensures Lookup(PutAll(d, es), es[i].key) == Some(es[i].value)
      {
        if i == 0 {
          forall j | 0 <= j < |es[1..]| ensures Keys(es[1..])[j] != es[0].key {
            assert es[1..][j] == es[j + 1];
          }
          assert es[0].key !in Keys(es[1..]);
        } else {
          assert es[1..][i - 1] == es[i];
        }
      }
    }
  }

  /** No two static macros share a name. */
  lemma StaticKeysDistinct(env: MacroEnv)
    ensures var es := StaticMacros(env); forall i, j :: 0 <= i < j < |es| ==> es[i].key != es[j].key
  {
    var es := StaticMacros(env);
    forall i, j | 0 <= i < j < |es| ensures es[i].key != es[j].key {
      if |es[i].key| == |es[j].key| {
        assert es[i].key[1] != es[j].key[1] || es[i].key[11] != es[j].key[11];
      }
    }
  }

  /**
   * The static macros override any custom macro of the same name; a custom
   * macro under any other name keeps its value.
   */
  lemma StaticMacrosOverride(custom: seq<Entry>, env: MacroEnv)
    ensures var d := PutAll(custom, StaticMacros(env));
      && Lookup(d, "{player.id}") == Some(env.dataPlayer)
      && Lookup(d, "{document.referrer}") == Some(Str(env.referrer))
      && Lookup(d, "{random}") == Some(env.random)
      && (env.mediainfo.None? ==> Lookup(d, "{mediainfo.name}") == Some(Str("")))
      && (forall k :: k !in Keys(StaticMacros(env)) ==> Lookup(d, k) == Lookup(custom, k))
  {
    var es := StaticMacros(env);
    StaticKeysDistinct(env);
    PutAllLookup(custom, es);
    assert es[0].key == "{player.id}" && es[10].key == "{document.referrer}" && es[12].key == "{random}";
    assert es[2].key == "{mediainfo.name}";
  }

  /** `{mediainfo.<set>.<field>}`. */
  function Tag(setName: string, field: string): string
  {
    "{mediainfo." + setName + "." + field + "}"
  }

  /** The entries `customFields` writes for one field set. */
  function Tagged(setName: string, fields: seq<Entry>): (r: seq<Entry>)
    ensures |r| == |fields|
    ensures forall i :: 0 <= i < |r| ==> r[i] == Entry(Tag(setName, fields[i].key), fields[i].value)
  {
    seq(|fields|, i requires 0 <= i < |fields| => Entry(Tag(setName, fields[i].key), fields[i].value))
  }

  /** The field set `mediainfo[name]`, when there is a mediainfo and that property is present. */
  function FieldSet(mi: Option<MediaInfo>, setName: string): Option<seq<Entry>>
  {
    if mi.Some? && setName in mi.value.fieldSets then Some(mi.value.fieldSets[setName]) else None
  }

  /** The table after `customFields(mediainfo, macros, setName)`. */
  function WithCustomFields(d: seq<Entry>, mi: Option<MediaInfo>, setName: string): (r: seq<Entry>)
    ensures FieldSet(mi, setName).None? ==> r == d
  {
    match FieldSet(mi, setName)
    case None => d
    case Some(fields) => PutAll(d, Tagged(setName, fields))
  }

  lemma {:induction false} PutAllSplit(d: seq<Entry>, es: seq<Entry>, i: nat)
    requires i < |es|
    ensures PutAll(PutEntry(PutAll(d, es[..i]), es[i].key, es[i].value), es[i + 1..]) == PutAll(d, es)
    decreases i
  {
    if i > 0 {
      assert es[1..][..i - 1] == es[1..i] && es[1..][i - 1] == es[i] && es[1..][i..] == es[i + 1..];
      PutAllSplit(PutEntry(d, es[0].key, es[0].value), es[1..], i - 1);
      assert es[..i][1..] == es[1..i];
    }
  }

  /**
   * With field names that are distinct (object keys are), every field gets its
   * tag with its value and no other key changes; without that field set the
   * table is unchanged.
   */
  lemma CustomFieldsLookup(d: seq<Entry>, mi: Option<MediaInfo>, setName: string)
    ensures FieldSet(mi, setName).None? ==> WithCustomFields(d, mi, setName) == d
    ensures FieldSet(mi, setName).Some? ==>
      var fields := FieldSet(mi, setName).value;
      (forall i, j :: 0 <= i < j < |fields| ==> fields[i].key != fields[j].key) ==>
        && (forall i :: 0 <= i < |fields| ==>
              Lookup(WithCustomFields(d, mi, setName), Tag(setName, fields[i].key)) == Some(fields[i].value))
        && (forall k :: k !in Keys(Tagged(setName, fields)) ==> Lookup(WithCustomFields(d, mi, setName), k) == Lookup(d, k))
  {
    if FieldSet(mi, setName).Some? {
      var fields := FieldSet(mi, setName).value;
      if forall i, j :: 0 <= i < j < |fields| ==> fields[i].key != fields[j].key {
        var es := Tagged(setName, fields);
        forall i, j | 0 <= i < j < |es| ensures es[i].key != es[j].key {
          var pre := "{mediainfo." + setName + ".";
          assert es[i].key == pre + fields[i].key + "}" && es[j].key == pre + fields[j].key + "}";
          assert es[i].key[|pre|..|es[i].key| - 1] == fields[i].key;
          assert es[j].key[|pre|..|es[j].key| - 1] == fields[j].key;
        }
        PutAllLookup(d, es);
      }
    }
  }

  /** `customFields(mediainfo, macros, setName)`: one write per field, in key order. */
  method CustomFields(mi: Option<MediaInfo>, macros: MacroTable, setName: string)
    modifies macros
    ensures macros.entries == WithCustomFields(old(macros.entries), mi, setName)
  {
    var fieldSet := FieldSet(mi, setName);
    if fieldSet.Some? {
      var fields := fieldSet.value;
      ghost var goal := Tagged(setName, fields);
      var i := 0;
      while i < |fields|
        invariant 0 <= i <= |fields|
        invariant PutAll(macros.entries, goal[i..]) == PutAll(old(macros.entries), goal)
      {
        var tag := Tag(setName, fields[i].key);
        assert goal[i..][0] == Entry(tag, fields[i].value) && goal[i..][1..] == goal[i + 1..];
        macros.Put(tag, fields[i].value);
        i := i + 1;
      }
      assert goal[i..] == [];
    }
  }

  // ---------------------------------------------------------------------------
  // Replacement

  /**
   * The `for..in` replacement loop over the table, key by key in table order.
   * A string containing none of the keys comes out unchanged.
   */
  function ReplaceKeys(s: string, d: seq<Entry>, uriEncode: bool, encode: string -> string): (r: string)
    ensures (forall i :: 0 <= i < |d| ==> !Occurs(d[i].key, s)) ==> r == s
    decreases |d|
  {
    if d == [] then s
    else
      var v := JoinSeparator(UriEncodeIfNeeded(d[0].value, uriEncode, encode));
      var s1 := ReplaceAll(s, d[0].key, v);
      assert !Occurs(d[0].key, s) ==> s1 == s by {
        if !Occurs(d[0].key, s) { ReplaceAbsent(s, d[0].key, v); }
      }
      assert forall i :: 0 <= i < |d[1..]| ==> d[1..][i] == d[i + 1];
      ReplaceKeys(s1, d[1..], uriEncode, encode)
  }

  /** A string made of one occurrence of a non-empty key becomes the replacement text alone. */
  lemma ReplaceWhole(k: string, x: string)
    requires k != ""
    ensures ReplaceAll(k, k, x) == x
  {
    assert k[..|k|] == k;
    assert IndexOf(k, k) == Some(0);
    assert k[|k|..] == "";
    assert Split("", k) == [""];
    assert Split(k, k) == ["", ""];
    assert ["", ""][1..] == [""];
  }

  /**
   * A string value is substituted as it is when `uriEncode` is absent or false,
   * and as `encodeURIComponent(value)` when it is true.
   */
  lemma LoneMacro(k: string, v: string, uriEncode: Option<bool>, encode: string -> string)
    requires k != ""
    ensures ReplaceKeys(k, [Entry(k, Str(v))], EncodeFlag(uriEncode), encode) == (if uriEncode == Some(true) then encode(v) else v)
  {
    ReplaceWhole(k, JoinSeparator(UriEncodeIfNeeded(Str(v), EncodeFlag(uriEncode), encode)));
  }

  /**
   * Without encoding, a macro whose value is `undefined` (say `{player.id}`
   * with no `data-player` option) is replaced by `","`, because `join(undefined)`
   * uses the default separator; with encoding it becomes the encoded `"undefined"`.
   */
  lemma UndefinedMacroBecomesComma(k: string, encode: string -> string)
    requires k != ""
    ensures ReplaceAll(k, k, JoinSeparator(UriEncodeIfNeeded(Undefined, false, encode))) == ","
    ensures ReplaceAll(k, k, JoinSeparator(UriEncodeIfNeeded(Undefined, true, encode))) == encode("undefined")
  {
    ReplaceWhole(k, ",");
    ReplaceWhole(k, encode("undefined"));
  }

  /** The page-variable value rule. */
  function PageVariableText(v: Value, uriEncode: bool, encode: string -> string): (r: string)
    ensures v.Null? ==> r == "null"
    ensures v.Undefined? || v.Obj? ==> r == ""
    ensures v.Bool? || v.Num? || v.Str? ==> r == (if uriEncode then encode(Stringify(v)) else Stringify(v))
  {
    match v
    case Null => "null"
    case Undefined => ""
    case Obj(_) => ""
    case _ => Stringify(UriEncodeIfNeeded(Str(Stringify(v)), uriEncode, encode))
  }

  const PagePrefix := "{pageVariable."

  /** The length of the run of characters other than `}` at the start of `s`. */
  function NameLength(s: string): (n: nat)
    ensures n <= |s| && (forall i :: 0 <= i < n ==> s[i] != '}') && (n < |s| ==> s[n] == '}')
  {
    if s == [] || s[0] == '}' then 0 else 1 + NameLength(s[1..])
  }

  /**
   * A lone `{pageVariable.<name>}` with a non-empty, `}`-free name becomes the
   * text for the variable's value: `"null"` for `null`, nothing for `undefined`
   * or an object, and the string form of a boolean, number or string, encoded
   * when asked.
   */
  lemma LonePageVariable(n: string, lookup: string -> Value, uriEncode: bool, encode: string -> string)
    requires n != "" && forall i :: 0 <= i < |n| ==> n[i] != '}'
    ensures var r := ReplacePageVariables(PagePrefix + n + "}", lookup, uriEncode, encode);
      var v := lookup(n);
      && (v.Null? ==> r == "null")
      && (v.Undefined? || v.Obj? ==> r == "")
      && (v.Bool? || v.Num? || v.Str? ==> r == (if uriEncode then encode(Stringify(v)) else Stringify(v)))
  {
    var s := PagePrefix + n + "}";
    assert s[..|PagePrefix|] == PagePrefix;
    var rest := s[|PagePrefix|..];
    assert rest == n + "}";
    var m := NameLength(rest);
    assert rest[|n|] == '}';
    assert m == |n|;
    assert rest[..m] == n && rest[m + 1..] == [];
  }

  /**
   * `string.replace(/{pageVariable\.([^}]+)}/g, ...)`: left to right, each
   * `{pageVariable.<name>}` with a non-empty name free of `}` becomes the
   * text for that page variable; everything else is copied. A string with no
   * `{pageVariable.` in it comes out unchanged.
   */
  function ReplacePageVariables(s: string, lookup: string -> Value, uriEncode: bool, encode: string -> string): (r: string)
    ensures !Occurs(PagePrefix, s) ==> r == s
    decreases |s|
  {
    if s == [] then []
    else if |s| >= |PagePrefix| && s[..|PagePrefix|] == PagePrefix then
      assert At(s, PagePrefix, 0);
      var rest := s[|PagePrefix|..];
      var n := NameLength(rest);
      if 0 < n < |rest| then
        PageVariableText(lookup(rest[..n]), uriEncode, encode)
        + ReplacePageVariables(rest[n + 1..], lookup, uriEncode, encode)
      else
        OccursTail(s, PagePrefix);
        [s[0]] + ReplacePageVariables(s[1..], lookup, uriEncode, encode)
    else
      OccursTail(s, PagePrefix);
      [s[0]] + ReplacePageVariables(s[1..], lookup, uriEncode, encode)
  }

  /** A key absent from a string is absent from its tail. */
  lemma OccursTail(s: string, k: string)
    requires s != ""
    ensures !Occurs(k, s) ==> !Occurs(k, s[1..])
  {
    if !Occurs(k, s) {
      ShiftAt(s, k);
      forall j: nat | j <= |s[1..]| ensures !At(s[1..], k, j) {
        assert !At(s, k, j + 1);
      }
    }
  }

  /** The table `adMacroReplacement` ends with: custom macros, then the static ones, then both custom field sets. */
  function FinalTable(custom: seq<Entry>, env: MacroEnv): seq<Entry>
  {
    WithCustomFields(WithCustomFields(PutAll(custom, StaticMacros(env)), env.mediainfo, "custom_fields"),
                     env.mediainfo, "customFields")
  }

  /** The substituted string: every key of the table replaced in table order, then the page variables. */
  function Substituted(s: string, table: seq<Entry>, uriEncode: bool, env: MacroEnv): string
  {
    ReplacePageVariables(ReplaceKeys(s, table, uriEncode, env.encode), env.pageVariable, uriEncode, env.encode)
  }

  /** The replacement loop, over a snapshot of the table's entries. */
  method ReplaceMacros(s: string, entries: seq<Entry>, uriEncode: bool, encode: string -> string) returns (r: string)
    ensures r == ReplaceKeys(s, entries, uriEncode, encode)
  {
    r := s;
    var i := 0;
    while i < |entries|
      invariant 0 <= i <= |entries|
      invariant ReplaceKeys(r, entries[i..], uriEncode, encode) == ReplaceKeys(s, entries, uriEncode, encode)
    {
      assert entries[i..][1..] == entries[i + 1..];
      var key := entries[i].key;
      r := Join(Split(r, key), JoinSeparator(UriEncodeIfNeeded(entries[i].value, uriEncode, encode)));
      i := i + 1;
    }
    assert entries[i..] == [];
  }

  /**
   * `adMacroReplacement(string, uriEncode, customMacros)`. The table written is
   * the caller's `customMacros` object when one is passed.
   */
  method AdMacroReplacement(s: string, uriEncode: Option<bool>, customMacros: Option<MacroTable>, env: MacroEnv)
    returns (r: string, macros: MacroTable)
    modifies if customMacros.Some? then {customMacros.value} else {}
    ensures customMacros.Some? ==> macros == customMacros.value
    ensures customMacros.None? ==> fresh(macros)
    ensures macros.entries == FinalTable(if customMacros.Some? then old(customMacros.value.entries) else [], env)
    ensures r == Substituted(s, macros.entries, EncodeFlag(uriEncode), env)
  {
    var encodeValues := EncodeFlag(uriEncode);
    if customMacros.Some? {
      macros := customMacros.value;
    } else {
      macros := new MacroTable([]);
    }
    ghost var start := macros.entries;
    var statics := StaticMacros(env);
    var i := 0;
    while i < |statics|
      invariant 0 <= i <= |statics|
      invariant PutAll(macros.entries, statics[i..]) == PutAll(start, statics)
      invariant customMacros.Some? ==> macros == customMacros.value
      invariant customMacros.None? ==> fresh(macros)
    {
      assert statics[i..][1..] == statics[i + 1..];
      macros.Put(statics[i].key, statics[i].value);
      i := i + 1;
    }
    assert statics[i..] == [];
    CustomFields(env.mediainfo, macros, "custom_fields");
    CustomFields(env.mediainfo, macros, "customFields");
    r := ReplaceMacros(s, macros.entries, encodeValues, env.encode);
    r := ReplacePageVariables(r, env.pageVariable, encodeValues, env.encode);
  }
}
