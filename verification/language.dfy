/**
 * The label store of one installation: labels per language as nested maps keyed by
 * scope, category and name; lookups by dotted key; translation with the Global scope
 * as fallback; and the bookkeeping of unsaved changes (changed labels and the names of
 * deleted labels) that `clearChanges` throws away.
 */
module Language {
  import opened Outcomes
  import opened Strings

  /** A label, or a map of labels (a category, a scope, an option list, …). */
  datatype Value = Str(s: string) | Tree(entries: map<string, Value>)

  const Empty := Tree(map[])

  /** The value at a path of keys, when every step exists. */
  function Lookup(v: Value, path: seq<string>): (r: Option<Value>)
    ensures path == [] ==> r == Some(v)
    decreases |path|
  {
    if path == [] then Some(v)
    else if v.Tree? && path[0] in v.entries then Lookup(v.entries[path[0]], path[1..])
    else None
  }

  /**
   * Assignment at a path, creating the maps on the way as PHP does for
   * `$a[k1][k2][k3] = x`; a label standing where a map is needed is replaced by one.
   */
  function Store(v: Value, path: seq<string>, x: Value): (r: Value)
    ensures path != [] ==> r.Tree? && path[0] in r.entries
    decreases |path|
  {
    if path == [] then x
    else
      var m := if v.Tree? then v.entries else map[];
      var child := if path[0] in m then m[path[0]] else Empty;
      Tree(m[path[0] := Store(child, path[1..], x)])
  }

  /** `unset` at a path; nothing changes when the path does not exist. */
  function Erase(v: Value, path: seq<string>): (r: Value)
    requires path != []
    decreases |path|
  {
    if !v.Tree? || path[0] !in v.entries then v
    else if |path| == 1 then Tree(v.entries - {path[0]})
    else Tree(v.entries[path[0] := Erase(v.entries[path[0]], path[1..])])
  }

  /**
   * A PHP list from which entries may be unset: each entry keeps the integer key it
   * was appended under, and the next append uses a key above every key ever used.
   */
  datatype Slots = Slots(entries: seq<(nat, string)>, next: nat)

  const NoSlots := Slots([], 0)

  /** The entries whose name is not `name`, in their order and under their keys. */
  function Without(entries: seq<(nat, string)>, name: string): (r: seq<(nat, string)>)
    ensures |r| <= |entries|
    ensures forall e :: e in r <==> e in entries && e.1 != name
  {
    if entries == [] then []
    else if entries[0].1 == name then Without(entries[1..], name)
    else [entries[0]] + Without(entries[1..], name)
  }

  datatype LanguageState = LanguageState(
    current: string,
    files: map<string, Value>,           // the labels of each language as the files hold them
    data: map<string, Value>,            // the labels in use, per language once loaded
    changed: Value,                      // changedData: scope -> category -> name -> label
    deleted: map<string, map<string, Slots>>)  // deletedData: scope -> category -> names

  /** The labels of a language as loaded from its files. */
  function Loaded(files: map<string, Value>, language: string): (r: Value)
    ensures language in files ==> r == files[language]
  {
    if language in files then files[language] else Empty
  }

  function Init(files: map<string, Value>, language: string): (r: LanguageState)
    ensures r.current == language && r.changed == Empty && r.deleted == map[]
  {
    LanguageState(language, files, map[], Empty, map[])
  }

  function SetLanguage(st: LanguageState, language: string): (r: LanguageState)
    ensures r.current == language
  {
    st.(current := language)
  }

  /** The cache file of the current language: the template with `{language}` substituted. */
  function CacheFile(template: string, st: LanguageState): string
  {
    Replace(template, "{language}", st.current)
  }

  /** The labels of the current language, loading them when not yet loaded. */
  function Data(st: LanguageState): (r: Value)
    ensures st.current !in st.data ==> r == Loaded(st.files, st.current)
  {
    if st.current in st.data then st.data[st.current] else Loaded(st.files, st.current)
  }

  /** The names deleted in a scope and category so far. */
  function DeletedIn(st: LanguageState, scope: string, category: string): Slots
  {
    if scope in st.deleted && category in st.deleted[scope] then st.deleted[scope][category] else NoSlots
  }

  /** PHP's empty() on a key: the empty string and "0". */
  predicate EmptyKey(key: string)
  {
    key == "" || key == "0"
  }

  /** get: the value at a dotted key; an empty key gives all labels. */
  function Get(st: LanguageState, key: string): (r: Option<Value>)
    ensures EmptyKey(key) ==> r == Some(Data(st))
    ensures !EmptyKey(key) ==> r == Lookup(Data(st), SplitOn(key, '.'))
  {
    if EmptyKey(key) then Some(Data(st)) else Lookup(Data(st), SplitOn(key, '.'))
  }

  function Key(scope: string, category: string, name: string): string
  {
    scope + "." + category + "." + name
  }

  /**
   * translate: the label in the scope, else the one in Global, else the name itself.
   * With required options a map of options is cut down to them, each missing one
   * standing for itself.
   */
  function Translate(st: LanguageState, name: string, category: string, scope: string,
                     required: Option<seq<string>>): (r: Value)
    ensures Get(st, Key(scope, category, name)).Some? && required.None? ==>
              r == Get(st, Key(scope, category, name)).value
    ensures Get(st, Key(scope, category, name)).None? && Get(st, Key("Global", category, name)).None? ==>
              r == Str(name)
  {
    var found := match Get(st, Key(scope, category, name))
      case Some(v) => v
      case None => Get(st, Key("Global", category, name)).GetOr(Str(name));
    match required
    case Some(options) =>
      if found.Tree? then Tree(Restrict(found.entries, options)) else found
    case None => found
  }

  /** The options of `m` named in `options`, each missing one mapped to a label of its own name. */
  function Restrict(m: map<string, Value>, options: seq<string>): (r: map<string, Value>)
  {
    map o | o in options :: if o in m then m[o] else Str(o)
  }

  /** translate of a list of labels: each label mapped to its translation. */
  function TranslateList(st: LanguageState, labels: seq<string>, category: string, scope: string,
                         required: Option<seq<string>>): (r: map<string, Value>)
  {
    map l | l in labels :: Translate(st, l, category, scope, required)
  }

  /** set: records the label as changed, puts it in the labels in use, and undeletes the name. */
  function Set(st: LanguageState, scope: string, category: string, name: string, text: string): (r: LanguageState)
    ensures r.current == st.current && r.files == st.files
  {
    var path := [scope, category, name];
    var slots := DeletedIn(st, scope, category);
    var deleted :=
      if scope in st.deleted && category in st.deleted[scope]
      then st.deleted[scope := st.deleted[scope][category := slots.(entries := Without(slots.entries, name))]]
      else st.deleted;
    st.(data := st.data[st.current := Store(Data(st), path, Str(text))],
        changed := Store(st.changed, path, Str(text)),
        deleted := deleted)
  }

  /** delete: appends the name to the deleted names and removes the label wherever it is. */
  function Delete(st: LanguageState, scope: string, category: string, name: string): (r: LanguageState)
    ensures r.current == st.current && r.files == st.files
  {
    var path := [scope, category, name];
    var slots := DeletedIn(st, scope, category);
    var inScope := if scope in st.deleted then st.deleted[scope] else map[];
    var appended := Slots(slots.entries + [(slots.next, name)], slots.next + 1);
    st.(data := st.data[st.current := Erase(Data(st), path)],
        changed := Erase(st.changed, path),
        deleted := st.deleted[scope := inScope[category := appended]])
  }

  /** clearChanges: forgets every change and reloads the labels of the current language. */
  function ClearChanges(st: LanguageState): (r: LanguageState)
    ensures r.changed == Empty && r.deleted == map[]
    ensures Data(r) == Loaded(st.files, st.current)
  {
    st.(data := st.data[st.current := Loaded(st.files, st.current)], changed := Empty, deleted := map[])
  }

  // ---------------------------------------------------------------------------
  // Paths

  /** A scope, category or label name that is one step of a dotted key. */
  predicate NoDot(s: string)
  {
    '.' !in s
  }

  /** A dotted key made of dot-free names splits back into those names. */
  lemma KeyPath(scope: string, category: string, name: string)
    requires NoDot(scope) && NoDot(category) && NoDot(name)
    ensures !EmptyKey(Key(scope, category, name))
    ensures SplitOn(Key(scope, category, name), '.') == [scope, category, name]
  {
    var parts := [scope, category, name];
    var tail := [category, name];
    assert tail[1..] == [name];
    assert Join(tail, ".") == category + "." + name;
    assert parts[1..] == tail;
    assert Join(parts, ".") == scope + "." + Join(tail, ".");
    assert Key(scope, category, name) == scope + "." + (category + "." + name);
    assert |Key(scope, category, name)| >= 2;
    assert forall i :: 0 <= i < |parts| ==> '.' !in parts[i];
    SplitJoin(parts, '.');
  }

  lemma {:induction false} LookupStore(v: Value, path: seq<string>, x: Value)
    ensures Lookup(Store(v, path, x), path) == Some(x)
    decreases |path|
  {
    if path != [] {
      var m := if v.Tree? then v.entries else map[];
      var child := if path[0] in m then m[path[0]] else Empty;
      LookupStore(child, path[1..], x);
    }
  }

  /** Assigning at one path leaves every other path of the same depth as it was. */
  lemma {:induction false} LookupStoreOther(v: Value, path: seq<string>, x: Value, p: seq<string>)
    requires |p| == |path| && p != path
    ensures Lookup(Store(v, path, x), p) == Lookup(v, p)
    decreases |path|
  {
    var m := if v.Tree? then v.entries else map[];
    var child := if path[0] in m then m[path[0]] else Empty;
    if p[0] == path[0] {
      assert p[1..] != path[1..] by {
        assert p == [p[0]] + p[1..] && path == [path[0]] + path[1..];
      }
      LookupStoreOther(child, path[1..], x, p[1..]);
    }
  }

  lemma {:induction false} LookupErase(v: Value, path: seq<string>)
    requires path != []
    ensures Lookup(Erase(v, path), path) == None
    decreases |path|
  {
    if v.Tree? && path[0] in v.entries && |path| > 1 {
      LookupErase(v.entries[path[0]], path[1..]);
    }
  }

  /** Unsetting one path leaves every other path of the same depth as it was. */
  lemma {:induction false} LookupEraseOther(v: Value, path: seq<string>, p: seq<string>)
    requires path != [] && |p| == |path| && p != path
    ensures Lookup(Erase(v, path), p) == Lookup(v, p)
    decreases |path|
  {
    if v.Tree? && path[0] in v.entries && p[0] == path[0] {
      assert p[1..] != path[1..] by {
        assert p == [p[0]] + p[1..] && path == [path[0]] + path[1..];
      }
      LookupEraseOther(v.entries[path[0]], path[1..], p[1..]);
    }
  }

  // ---------------------------------------------------------------------------
  // set, delete, clearChanges

  /** After `set` the label translates to the new text and is recorded as changed. */
  lemma SetTranslates(st: LanguageState, scope: string, category: string, name: string, text: string)
    requires NoDot(scope) && NoDot(category) && NoDot(name)
    ensures var r := Set(st, scope, category, name, text);
            Get(r, Key(scope, category, name)) == Some(Str(text))
            && Translate(r, name, category, scope, None) == Str(text)
            && Lookup(r.changed, [scope, category, name]) == Some(Str(text))
  {
    KeyPath(scope, category, name);
    LookupStore(Data(st), [scope, category, name], Str(text));
    LookupStore(st.changed, [scope, category, name], Str(text));
  }

  /** `set` accumulates: every other label, changed or in use, stays as it was. */
  lemma SetKeepsOthers(st: LanguageState, scope: string, category: string, name: string, text: string,
                       p: seq<string>)
    requires |p| == 3 && p != [scope, category, name]
    ensures var r := Set(st, scope, category, name, text);
            Lookup(r.changed, p) == Lookup(st.changed, p) && Lookup(Data(r), p) == Lookup(Data(st), p)
  {
    LookupStoreOther(Data(st), [scope, category, name], Str(text), p);
    LookupStoreOther(st.changed, [scope, category, name], Str(text), p);
  }

  /**
   * `set` undeletes the name: its entries leave the deleted names of its scope and
   * category, every other entry keeps its key and order, and other scopes and
   * categories are untouched.
   */
  lemma SetUndeletes(st: LanguageState, scope: string, category: string, name: string, text: string,
                     otherScope: string, otherCategory: string)
    requires (otherScope, otherCategory) != (scope, category)
    ensures var r := Set(st, scope, category, name, text);
            var before := DeletedIn(st, scope, category);
            DeletedIn(r, scope, category) == Slots(Without(before.entries, name), before.next)
            && DeletedIn(r, otherScope, otherCategory) == DeletedIn(st, otherScope, otherCategory)
  {
  }

  /** After `delete` the label is gone and its name is appended to the deleted names. */
  lemma DeleteRemoves(st: LanguageState, scope: string, category: string, name: string)
    requires NoDot(scope) && NoDot(category) && NoDot(name)
    ensures var r := Delete(st, scope, category, name);
            var before := DeletedIn(st, scope, category);
            Get(r, Key(scope, category, name)) == None
            && Lookup(r.changed, [scope, category, name]) == None
            && DeletedIn(r, scope, category) == Slots(before.entries + [(before.next, name)], before.next + 1)
  {
    DeleteAppends(st, scope, category, name);
    KeyPath(scope, category, name);
    LookupErase(Data(st), [scope, category, name]);
    LookupErase(st.changed, [scope, category, name]);
  }

  lemma DeleteAppends(st: LanguageState, scope: string, category: string, name: string)
    ensures var before := DeletedIn(st, scope, category);
            DeletedIn(Delete(st, scope, category, name), scope, category)
            == Slots(before.entries + [(before.next, name)], before.next + 1)
  {
  }

  /** `delete` leaves every other label and the deleted names of other categories alone. */
  lemma DeleteKeepsOthers(st: LanguageState, scope: string, category: string, name: string,
                          p: seq<string>, otherScope: string, otherCategory: string)
    requires |p| == 3 && p != [scope, category, name]
    requires (otherScope, otherCategory) != (scope, category)
    ensures var r := Delete(st, scope, category, name);
            Lookup(r.changed, p) == Lookup(st.changed, p) && Lookup(Data(r), p) == Lookup(Data(st), p)
            && DeletedIn(r, otherScope, otherCategory) == DeletedIn(st, otherScope, otherCategory)
  {
    LookupEraseOther(Data(st), [scope, category, name], p);
    LookupEraseOther(st.changed, [scope, category, name], p);
  }

  /** `clearChanges` forgets a `set` and a `delete` entirely: the labels are the loaded ones again. */
  lemma ClearChangesForgets(st: LanguageState, scope: string, category: string, name: string, text: string)
    ensures ClearChanges(Set(st, scope, category, name, text)) == ClearChanges(st)
    ensures ClearChanges(Delete(st, scope, category, name)) == ClearChanges(st)
    ensures forall key :: Get(ClearChanges(st), key) == Get(Init(st.files, st.current), key)
  {
  }

  // ---------------------------------------------------------------------------
  // translate

  /** A label missing from the scope comes from Global, if there. */
  lemma TranslateFallsBackToGlobal(st: LanguageState, name: string, category: string, scope: string)
    requires Get(st, Key(scope, category, name)).None? && Get(st, Key("Global", category, name)).Some?
    ensures Translate(st, name, category, scope, None) == Get(st, Key("Global", category, name)).value
  {
  }

  /**
   * With required options, an option list comes back with exactly the required options:
   * those it has keep their labels, the others are labelled with their own names.
   */
  lemma TranslateRequiredOptions(st: LanguageState, name: string, category: string, scope: string,
                                 options: seq<string>)
    requires Get(st, Key(scope, category, name)).Some? && Get(st, Key(scope, category, name)).value.Tree?
    ensures var found := Get(st, Key(scope, category, name)).value.entries;
            var r := Translate(st, name, category, scope, Some(options));
            r.Tree? && (forall o :: o in r.entries <==> o in options)
            && (forall o :: o in options && o in found ==> r.entries[o] == found[o])
            && (forall o :: o in options && o !in found ==> r.entries[o] == Str(o))
  {
  }

  /** A list of labels translates to a map from each of them to its translation. */
  lemma TranslateListPointwise(st: LanguageState, labels: seq<string>, category: string, scope: string,
                               required: Option<seq<string>>)
    ensures var r := TranslateList(st, labels, category, scope, required);
            (forall l :: l in r <==> l in labels)
            && forall i :: 0 <= i < |labels| ==> r[labels[i]] == Translate(st, labels[i], category, scope, required)
  {
  }

  /** A dotted label name reaches into a nested map of labels: `language.en_US` in options. */
  lemma TranslateSubLabel(st: LanguageState, scope: string, category: string, outer: string, inner: string)
    requires NoDot(scope) && NoDot(category) && NoDot(outer) && NoDot(inner)
    requires Lookup(Data(st), [scope, category, outer, inner]).Some?
    ensures Translate(st, outer + "." + inner, category, scope, None)
            == Lookup(Data(st), [scope, category, outer, inner]).value
  {
    var parts := [scope, category, outer, inner];
    var key := Key(scope, category, outer + "." + inner);
    assert parts[1..] == [category, outer, inner] && parts[2..] == [outer, inner] && parts[3..] == [inner];
    assert Join(parts[2..], ".") == outer + "." + inner by {
      assert parts[2..][1..] == [inner];
    }
    assert Join(parts[1..], ".") == category + "." + (outer + "." + inner) by {
      assert parts[1..][1..] == parts[2..];
    }
    assert Join(parts, ".") == key;
    assert forall i :: 0 <= i < |parts| ==> '.' !in parts[i];
    SplitJoin(parts, '.');
    assert |key| >= 2;
  }

  // ---------------------------------------------------------------------------
  // Cache file

  /** The cache file names the current language wherever the template has the placeholder, and follows setLanguage. */
  lemma CacheFileFollowsLanguage(pieces: seq<string>, st: LanguageState, language: string)
    requires |pieces| >= 1 && forall i :: 0 <= i < |pieces| ==> '{' !in pieces[i]
    ensures CacheFile(Join(pieces, "{language}"), st) == Join(pieces, st.current)
    ensures CacheFile(Join(pieces, "{language}"), SetLanguage(st, language)) == Join(pieces, language)
  {
    ReplaceInTemplate(pieces, "{language}", st.current);
    ReplaceInTemplate(pieces, "{language}", language);
  }

  // ---------------------------------------------------------------------------
  // The sequences of the label-store test

  /** Three `set` calls leave all three labels recorded as changed, across scopes. */
  lemma SetsAccumulate(st0: LanguageState, st1: LanguageState, st2: LanguageState, st3: LanguageState)
    requires st1 == Set(st0, "User", "fields", "label", "TEST")
    requires st2 == Set(st1, "User", "fields", "name", "TEST2")
    requires st3 == Set(st2, "Account", "fields", "name", "TEST3")
    ensures Lookup(st3.changed, ["User", "fields", "label"]) == Some(Str("TEST"))
    ensures Lookup(st3.changed, ["User", "fields", "name"]) == Some(Str("TEST2"))
    ensures Lookup(st3.changed, ["Account", "fields", "name"]) == Some(Str("TEST3"))
  {
    LookupStore(st0.changed, ["User", "fields", "label"], Str("TEST"));
    LookupStore(st1.changed, ["User", "fields", "name"], Str("TEST2"));
    LookupStore(st2.changed, ["Account", "fields", "name"], Str("TEST3"));
    SetKeepsOthers(st1, "User", "fields", "name", "TEST2", ["User", "fields", "label"]);
    SetKeepsOthers(st2, "Account", "fields", "name", "TEST3", ["User", "fields", "label"]);
    SetKeepsOthers(st2, "Account", "fields", "name", "TEST3", ["User", "fields", "name"]);
  }

  /** Deleting two labels and setting the first again leaves the second under its key 1. */
  lemma UndeleteKeepsKeys(st0: LanguageState, st1: LanguageState, st2: LanguageState,
                          st3: LanguageState, st4: LanguageState)
    requires DeletedIn(st0, "User", "fields") == NoSlots
    requires st1 == Delete(st0, "User", "fields", "label")
    requires st2 == Delete(st1, "User", "fields", "name")
    requires st3 == Set(st2, "User", "fields", "label", "TEST")
    requires st4 == Set(st3, "User", "fields", "name", "TEST2")
    ensures DeletedIn(st2, "User", "fields") == Slots([(0, "label"), (1, "name")], 2)
    ensures DeletedIn(st3, "User", "fields") == Slots([(1, "name")], 2)
    ensures DeletedIn(st4, "User", "fields") == Slots([], 2)
  {
    DeleteTwice(st0, st1, st2);
    UndeleteStep(st2, "label", "TEST", [(0, "label"), (1, "name")], [(1, "name")]);
    UndeleteStep(st3, "name", "TEST2", [(1, "name")], []);
  }

  lemma DeleteTwice(st0: LanguageState, st1: LanguageState, st2: LanguageState)
    requires DeletedIn(st0, "User", "fields") == NoSlots
    requires st1 == Delete(st0, "User", "fields", "label")
    requires st2 == Delete(st1, "User", "fields", "name")
    ensures DeletedIn(st2, "User", "fields") == Slots([(0, "label"), (1, "name")], 2)
  {
    DeleteAppends(st0, "User", "fields", "label");
    DeleteAppends(st1, "User", "fields", "name");
    assert [(0, "label")] + [(1, "name")] == [(0, "label"), (1, "name")];
  }

  lemma UndeleteStep(st: LanguageState, name: string, text: string,
                     before: seq<(nat, string)>, after: seq<(nat, string)>)
    requires DeletedIn(st, "User", "fields") == Slots(before, 2)
    requires Without(before, name) == after
    ensures DeletedIn(Set(st, "User", "fields", name, text), "User", "fields") == Slots(after, 2)
  {
    SetUndeletes(st, "User", "fields", name, text, "", "");
  }
}
