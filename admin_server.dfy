// The admin dashboard's server-side helpers (the redacted configuration
// view, the nested configuration setter, the session tokens behind the
// authentication middleware, the manual-run endpoint) and two helpers of
// the dashboard's own script (the cron description and the HTML escape).
module AdminServer {
  import opened Wrappers
  import opened Text
  import opened Seqs
  import Scheduler

  // ---------------------------------------------------------------- isSensitive

  const SensitiveKeys: set<string> := {"password", "pass", "apiKey", "api_key", "secret", "token"}

  /** `isSensitive`: the lower-cased key is one of the listed names or
   *  contains password, secret, token or apikey. */
  predicate IsSensitive(key: string)
  {
    var lower := ToLower(key);
    lower in SensitiveKeys || Contains(lower, "password") || Contains(lower, "secret")
    || Contains(lower, "token") || Contains(lower, "apikey")
  }

  lemma ContainsSelf(s: string)
    ensures Contains(s, s)
  {
  }

  /** The listed 'apiKey' can never equal a lower-cased key, and the listed
   *  'password', 'secret' and 'token' are covered by the substring tests, so
   *  the set adds only 'pass' and 'api_key'. */
  lemma SensitiveCharacterized(key: string)
    ensures IsSensitive(key) <==>
      ToLower(key) == "pass" || ToLower(key) == "api_key" || Contains(ToLower(key), "password")
      || Contains(ToLower(key), "secret") || Contains(ToLower(key), "token") || Contains(ToLower(key), "apikey")
  {
    var lower := ToLower(key);
    LowerIdempotent(key);
    if |lower| >= 4 {
      assert lower[3] == ToLower(lower)[3] == LowerChar(lower[3]);
      assert LowerChar('K') == 'k';
      assert lower[3] != 'K';
    }
    assert lower != "apiKey";
    ContainsSelf(lower);
  }

  /** Sensitivity does not depend on letter case. */
  lemma SensitiveIgnoresCase(key: string)
    ensures IsSensitive(ToLower(key)) == IsSensitive(key)
  {
    LowerIdempotent(key);
  }

  // ---------------------------------------------------------------- configuration values

  /** A property of a configuration object, in insertion order. */
  datatype Field = Field(key: string, value: Json)

  /** A configuration value; numbers are integers, and `JNaN` is what a
   *  failed `Number` conversion leaves. */
  datatype Json =
    | JUndefined
    | JNull
    | JBool(b: bool)
    | JNum(n: int)
    | JNaN
    | JStr(s: string)
    | JArr(items: seq<Json>)
    | JObj(fields: seq<Field>)

  /** `String(value)`; an array joins its items with commas, null and
   *  undefined items giving empty text. */
  function Str(v: Json): string
    decreases v
  {
    match v
    case JUndefined => "undefined"
    case JNull => "null"
    case JBool(b) => if b then "true" else "false"
    case JNum(n) => IntToString(n)
    case JNaN => "NaN"
    case JStr(s) => s
    case JArr(items) =>
      Join(seq(|items|, i requires 0 <= i < |items| =>
        if items[i].JNull? || items[i].JUndefined? then "" else Str(items[i])), ",")
    case JObj(_) => "[object Object]"
  }

  // ---------------------------------------------------------------- flattenConfig

  const Redacted := "••••••••"

  const EditableKeys: set<string> := {
    "sucursalWix", "mssql.empId", "odoo.livechatChannelId", "odoo.reportsDir",
    "timezone", "logLevel", "smtp.from", "smtp.port", "smtp.secure",
    "pg.port", "pg.database", "mssql.port", "mssql.database",
    "mssql.encrypt", "mssql.trustServerCertificate"}

  datatype ConfigEntry = ConfigEntry(key: string, value: string, sensitive: bool, editable: bool)

  /** The dotted key of a property; an empty prefix adds nothing. */
  function FullKey(prefix: string, key: string): (r: string)
    ensures prefix != "" ==> StartsWith(r, prefix + ".")
    ensures prefix == "" ==> r == key
  {
    if prefix != "" then prefix + "." + key else key
  }

  /** The entry of one leaf: redacted when its own key is sensitive, and
   *  editable only when listed and not sensitive. */
  function Leaf(fullKey: string, key: string, v: Json): (e: ConfigEntry)
    ensures e.key == fullKey && e.sensitive == IsSensitive(key)
    ensures e.sensitive ==> e.value == Redacted
    ensures !e.sensitive ==> e.value == Str(v)
    ensures e.editable <==> fullKey in EditableKeys && !IsSensitive(key)
  {
    var sensitive := IsSensitive(key);
    ConfigEntry(fullKey, if sensitive then Redacted else Str(v), sensitive, fullKey in EditableKeys && !sensitive)
  }

  /** The number of values that are not objects, at any depth. */
  function Leaves(fields: seq<Field>): nat
    decreases fields
  {
    if fields == [] then 0
    else (if fields[0].value.JObj? then Leaves(fields[0].value.fields) else 1) + Leaves(fields[1..])
  }

  lemma StartsWithLonger(s: string, p: string, q: string)
    requires StartsWith(s, p + q)
    ensures StartsWith(s, p)
  {
    assert s[..|p|] == (p + q)[..|p|];
  }

  /** `flattenConfig`: one entry per non-object value, under its dotted key;
   *  objects are entered, never listed. */
  function Flatten(fields: seq<Field>, prefix: string): (r: seq<ConfigEntry>)
    ensures |r| == Leaves(fields)
    ensures forall e :: e in r ==> (e.sensitive ==> e.value == Redacted)
    ensures forall e :: e in r ==> (e.editable <==> e.key in EditableKeys && !e.sensitive)
    decreases fields
  {
    if fields == [] then []
    else
      var f := fields[0];
      var full := FullKey(prefix, f.key);
      var head := if f.value.JObj? then Flatten(f.value.fields, full) else [Leaf(full, f.key, f.value)];
      head + Flatten(fields[1..], prefix)
  }

  /** Under a prefix every key is that prefix and a dot, then more. */
  lemma {:induction false} FlattenPrefixed(fields: seq<Field>, prefix: string)
    requires prefix != ""
    ensures forall e :: e in Flatten(fields, prefix) ==> StartsWith(e.key, prefix + ".")
    decreases fields
  {
    if fields != [] {
      var f := fields[0];
      var full := FullKey(prefix, f.key);
      FlattenPrefixed(fields[1..], prefix);
      if f.value.JObj? {
        FlattenPrefixed(f.value.fields, full);
        assert full + "." == (prefix + ".") + (f.key + ".");
        forall e | e in Flatten(f.value.fields, full)
          ensures StartsWith(e.key, prefix + ".")
        {
          StartsWithLonger(e.key, prefix + ".", f.key + ".");
        }
      }
    }
  }

  /** Every value that is not an object is listed, under its dotted key. */
  lemma {:induction false} FlattenLists(fields: seq<Field>, prefix: string, i: nat)
    requires i < |fields| && !fields[i].value.JObj?
    ensures Leaf(FullKey(prefix, fields[i].key), fields[i].key, fields[i].value) in Flatten(fields, prefix)
    decreases i
  {
    if i > 0 {
      assert fields[1..][i - 1] == fields[i];
      FlattenLists(fields[1..], prefix, i - 1);
    }
  }

  /** The entries of a section are listed among those of the object that
   *  holds it. */
  lemma {:induction false} FlattenEnters(fields: seq<Field>, prefix: string, i: nat)
    requires i < |fields| && fields[i].value.JObj?
    ensures forall e :: e in Flatten(fields[i].value.fields, FullKey(prefix, fields[i].key)) ==> e in Flatten(fields, prefix)
    decreases i
  {
    if i > 0 {
      assert fields[1..][i - 1] == fields[i];
      FlattenEnters(fields[1..], prefix, i - 1);
    }
  }

  /** The entry for the leaf reached by following property positions from
   *  the top: `None` when the path stops at a section or leaves the tree. */
  function EntryAt(fields: seq<Field>, prefix: string, path: seq<nat>): Option<ConfigEntry>
    decreases |path|
  {
    if path == [] || path[0] >= |fields| then None
    else
      var f := fields[path[0]];
      var full := FullKey(prefix, f.key);
      if f.value.JObj? then EntryAt(f.value.fields, full, path[1..])
      else if |path| == 1 then Some(Leaf(full, f.key, f.value))
      else None
  }

  /** Every leaf at any depth is listed as its own entry: under its dotted
   *  key, redacted exactly when its own name is sensitive. */
  lemma {:induction false} FlattenListsDeep(fields: seq<Field>, prefix: string, path: seq<nat>)
    requires EntryAt(fields, prefix, path).Some?
    ensures EntryAt(fields, prefix, path).value in Flatten(fields, prefix)
    decreases |path|
  {
    var f := fields[path[0]];
    if f.value.JObj? {
      FlattenListsDeep(f.value.fields, FullKey(prefix, f.key), path[1..]);
      FlattenEnters(fields, prefix, path[0]);
    } else {
      FlattenLists(fields, prefix, path[0]);
    }
  }

  lemma EntryAtTail(fields: seq<Field>, prefix: string, path: seq<nat>)
    requires fields != [] && path != []
    ensures EntryAt(fields[1..], prefix, path) == EntryAt(fields, prefix, [path[0] + 1] + path[1..])
  {
    var q := [path[0] + 1] + path[1..];
    assert q[1..] == path[1..];
  }

  /** And nothing else is listed: every entry is the leaf at some path. */
  lemma {:induction false} FlattenOnlyLeaves(fields: seq<Field>, prefix: string, e: ConfigEntry)
    requires e in Flatten(fields, prefix)
    ensures exists path :: EntryAt(fields, prefix, path) == Some(e)
    decreases fields
  {
    var f := fields[0];
    var full := FullKey(prefix, f.key);
    var head := if f.value.JObj? then Flatten(f.value.fields, full) else [Leaf(full, f.key, f.value)];
    assert Flatten(fields, prefix) == head + Flatten(fields[1..], prefix);
    if e in head {
      if f.value.JObj? {
        FlattenOnlyLeaves(f.value.fields, full, e);
        var p :| EntryAt(f.value.fields, full, p) == Some(e);
        assert ([0] + p)[1..] == p;
        assert EntryAt(fields, prefix, [0] + p) == Some(e);
      } else {
        assert EntryAt(fields, prefix, [0]) == Some(e);
      }
    } else {
      FlattenOnlyLeaves(fields[1..], prefix, e);
      var p :| EntryAt(fields[1..], prefix, p) == Some(e);
      EntryAtTail(fields, prefix, p);
    }
  }

  // ---------------------------------------------------------------- setNestedValue

  /** The value of the first property named `key`. */
  function Lookup(fields: seq<Field>, key: string): Option<Json>
    decreases |fields|
  {
    if fields == [] then None
    else if fields[0].key == key then Some(fields[0].value)
    else Lookup(fields[1..], key)
  }

  /** A property is found exactly when some field carries its key. */
  lemma {:induction false} LookupFinds(fields: seq<Field>, key: string)
    ensures Lookup(fields, key).Some? <==> exists i :: 0 <= i < |fields| && fields[i].key == key
    decreases |fields|
  {
    if fields != [] && fields[0].key != key {
      LookupFinds(fields[1..], key);
      assert forall i :: 1 <= i < |fields| ==> fields[i] == fields[1..][i - 1];
    }
  }

  /** Assignment of a property: an existing one changes in place, a new one
   *  is added last. */
  function Put(fields: seq<Field>, key: string, v: Json): (r: seq<Field>)
    ensures Lookup(r, key) == Some(v)
    ensures forall k :: k != key ==> Lookup(r, k) == Lookup(fields, k)
    ensures Lookup(fields, key).Some? ==> |r| == |fields|
    ensures Lookup(fields, key).None? ==> r == fields + [Field(key, v)]
    decreases |fields|
  {
    if fields == [] then [Field(key, v)]
    else if fields[0].key == key then [Field(key, v)] + fields[1..]
    else
      var rest := Put(fields[1..], key, v);
      var r := [fields[0]] + rest;
      assert r[1..] == rest;
      assert Lookup(fields, key).None? ==> r == fields + [Field(key, v)] by {
        if Lookup(fields, key).None? {
          assert fields == [fields[0]] + fields[1..];
        }
      }
      r
  }

  /** Assigning a property its own value changes nothing. */
  lemma {:induction false} PutSame(fields: seq<Field>, key: string)
    requires Lookup(fields, key).Some?
    ensures Put(fields, key, Lookup(fields, key).value) == fields
    decreases |fields|
  {
    if fields[0].key != key {
      PutSame(fields[1..], key);
      assert [fields[0]] + fields[1..] == fields;
    }
  }

  /** `Number(text)` on the integer inputs the model covers: blank text is
   *  0, and a decimal integer with an optional leading '-' is its value.
   *  Every other text is NaN here, although `Number` also reads a leading
   *  '+', fractions, exponents, hexadecimal and "Infinity". */
  function NumberOf(value: string): (r: Json)
    ensures r.JNum? || r.JNaN?
    ensures Trim(value) == "" ==> r == JNum(0)
  {
    var t := Trim(value);
    if t == "" then JNum(0)
    else if AllDigits(t) then JNum(DigitsValue(t))
    else if t[0] == '-' && |t| > 1 && AllDigits(t[1..]) then JNum(0 - DigitsValue(t[1..]))
    else JNaN
  }

  /** The coercion to the type of the value being replaced. */
  function Coerce(existing: Option<Json>, value: string): (r: Json)
    ensures existing.Some? && (existing.value.JNum? || existing.value.JNaN?) ==> r == NumberOf(value)
    ensures existing.Some? && existing.value.JBool? ==> r == JBool(value == "true")
    ensures !(existing.Some? && (existing.value.JNum? || existing.value.JNaN? || existing.value.JBool?)) ==> r == JStr(value)
  {
    if existing.Some? && (existing.value.JNum? || existing.value.JNaN?) then NumberOf(value)
    else if existing.Some? && existing.value.JBool? then JBool(value == "true")
    else JStr(value)
  }

  /** The value at a path, when every step exists and every intermediate is
   *  an object. */
  function GetPath(fields: seq<Field>, parts: seq<string>): Option<Json>
    requires |parts| >= 1
    decreases |parts|
  {
    var v := Lookup(fields, parts[0]);
    if |parts| == 1 then v
    else if v.Some? && v.value.JObj? then GetPath(v.value.fields, parts[1..])
    else None
  }

  /** Every intermediate of the path exists and is an object. */
  predicate ParentExists(fields: seq<Field>, parts: seq<string>)
    requires |parts| >= 1
    decreases |parts|
  {
    |parts| == 1
    || (var v := Lookup(fields, parts[0]);
        v.Some? && v.value.JObj? && ParentExists(v.value.fields, parts[1..]))
  }

  /** The walk of `setNestedValue` through object properties: with a
   *  missing or non-object intermediate nothing changes; otherwise the last
   *  property gets the coerced value and every other property keeps its
   *  value. An array intermediate is treated as a non-object. */
  function SetPath(fields: seq<Field>, parts: seq<string>, value: string): (r: seq<Field>)
    requires |parts| >= 1
    ensures !ParentExists(fields, parts) ==> r == fields
    ensures forall k :: k != parts[0] ==> Lookup(r, k) == Lookup(fields, k)
    decreases |parts|
  {
    if |parts| == 1 then Put(fields, parts[0], Coerce(Lookup(fields, parts[0]), value))
    else
      var v := Lookup(fields, parts[0]);
      if v.Some? && v.value.JObj? then
        PutSame(fields, parts[0]);
        Put(fields, parts[0], JObj(SetPath(v.value.fields, parts[1..], value)))
      else fields
  }

  /** `setNestedValue(config, path, value)`: only the property the path
   *  starts with can change; when every intermediate exists the path reads
   *  back the coerced value, and otherwise nothing changes. */
  function SetNested(config: seq<Field>, path: string, value: string): (r: seq<Field>)
    ensures var parts := Split(path, '.');
      (forall k :: k != parts[0] ==> Lookup(r, k) == Lookup(config, k))
      && (!ParentExists(config, parts) ==> r == config)
      && (ParentExists(config, parts) ==> GetPath(r, parts) == Some(Coerce(GetPath(config, parts), value)))
  {
    var parts := Split(path, '.');
    assert ParentExists(config, parts) ==>
           GetPath(SetPath(config, parts, value), parts) == Some(Coerce(GetPath(config, parts), value)) by {
      if ParentExists(config, parts) {
        SetThenGet(config, parts, value);
      }
    }
    SetPath(config, parts, value)
  }

  /** After a set whose intermediates exist, the path reads back the value
   *  coerced to the type it replaced. */
  lemma {:induction false} SetThenGet(fields: seq<Field>, parts: seq<string>, value: string)
    requires |parts| >= 1 && ParentExists(fields, parts)
    ensures GetPath(SetPath(fields, parts, value), parts) == Some(Coerce(GetPath(fields, parts), value))
    decreases |parts|
  {
    if |parts| > 1 {
      var v := Lookup(fields, parts[0]);
      SetThenGet(v.value.fields, parts[1..], value);
    }
  }

  // ---------------------------------------------------------------- sessions

  const TokenChars := "abcdefghijklmnopqrstuvwxyzABCDEFGHIJKLMNOPQRSTUVWXYZ0123456789"
  const TokenLength := 48

  /** `generateToken`, given the 48 positions drawn by `Math.random`. */
  function GenerateToken(picks: seq<nat>): (t: string)
    requires |picks| == TokenLength && forall k :: 0 <= k < |picks| ==> picks[k] < |TokenChars|
    ensures |t| == TokenLength && forall k :: 0 <= k < |t| ==> t[k] in TokenChars
  {
    seq(TokenLength, k requires 0 <= k < TokenLength => TokenChars[picks[k]])
  }

  /** `ADMIN_USER`: the environment value, 'admin' when unset or empty. */
  function AdminUser(env: Option<string>): (u: string)
    ensures u != ""
    ensures env.Some? && env.value != "" ==> u == env.value
  {
    if env.Some? && env.value != "" then env.value else "admin"
  }

  /** Without an admin password the dashboard is not started at all. */
  predicate DashboardEnabled(adminPassword: string)
  {
    adminPassword != ""
  }

  /** The paths the middleware lets through without a token. */
  predicate IsPublic(path: string)
  {
    path == "/api/login" || path == "/"
  }

  /** The set of active session tokens. */
  class Sessions {
    var active: set<string>

    constructor ()
      ensures active == {}
    {
      active := {};
    }

    /** `authMiddleware`: public paths pass; any other needs a non-empty
     *  token that is active. */
    predicate Authorized(path: string, token: Option<string>)
      reads this
      ensures IsPublic(path) ==> Authorized(path, token)
      ensures !IsPublic(path) && (token.None? || token.value !in active) ==> !Authorized(path, token)
    {
      IsPublic(path) || (token.Some? && token.value != "" && token.value in active)
    }

    /** `POST /api/login`: the right user and password add a fresh token
     *  (200); anything else is refused (401) and adds none. */
    method Login(user: string, password: string, adminUser: string, adminPassword: string, picks: seq<nat>)
      returns (status: int, token: Option<string>)
      requires DashboardEnabled(adminPassword)
      requires |picks| == TokenLength && forall k :: 0 <= k < |picks| ==> picks[k] < |TokenChars|
      modifies this
      ensures user == adminUser && password == adminPassword ==>
        status == 200 && token == Some(GenerateToken(picks)) && active == old(active) + {token.value}
      ensures !(user == adminUser && password == adminPassword) ==>
        status == 401 && token.None? && active == old(active)
      ensures token.Some? ==> forall p :: Authorized(p, token)
    {
      if user == adminUser && password == adminPassword {
        var t := GenerateToken(picks);
        active := active + {t};
        status, token := 200, Some(t);
      } else {
        status, token := 401, None;
      }
    }

    /** `POST /api/logout`: the token is no longer active; the others stay. */
    method Logout(token: Option<string>)
      modifies this
      ensures token.Some? ==> active == old(active) - {token.value}
      ensures token.None? ==> active == old(active)
      ensures forall p :: !IsPublic(p) ==> !Authorized(p, token)
    {
      if token.Some? {
        active := active - {token.value};
      }
    }
  }

  // ---------------------------------------------------------------- the run endpoint

  /** `POST /api/tasks/:name/run`: 404 for an unknown task, 409 while it
   *  runs; otherwise 200, and the run has begun. */
  method RunEndpoint(registry: Scheduler.Registry, name: string) returns (status: int)
    requires registry.Valid()
    modifies if name in registry.tasks then {registry.tasks[name]} else {}
    ensures registry.Valid()
    ensures name !in registry.tasks ==> status == 404
    ensures name in registry.tasks && old(registry.tasks[name].running) ==> status == 409 && registry.tasks[name].running
    ensures name in registry.tasks && !old(registry.tasks[name].running) ==>
      status == 200 && registry.tasks[name].running && registry.tasks[name].history == old(registry.tasks[name].history)
  {
    if name !in registry.tasks {
      status := 404;
    } else if registry.tasks[name].running {
      status := 409;
    } else {
      var t := registry.tasks[name];
      var started := t.Begin();
      status := 200;
    }
  }

  // ---------------------------------------------------------------- cronToHuman

  predicate NoSpace(s: string)
  {
    forall j :: 0 <= j < |s| ==> !IsSpace(s[j])
  }

  /** The index of the first whitespace character, or the length. */
  function FirstSpace(s: string): (i: nat)
    ensures i <= |s| && NoSpace(s[..i]) && (i < |s| ==> IsSpace(s[i]))
    decreases |s|
  {
    if s == [] || IsSpace(s[0]) then 0
    else
      var i := 1 + FirstSpace(s[1..]);
      assert forall j :: 1 <= j < i ==> s[..i][j] == s[1..][..i - 1][j - 1];
      i
  }

  /** The index just past the whitespace run that starts at `i`. */
  function RunEnd(s: string, i: nat): (j: nat)
    requires i <= |s|
    ensures i <= j <= |s| && (j < |s| ==> !IsSpace(s[j]))
    ensures i < |s| && IsSpace(s[i]) ==> j > i
    decreases |s| - i
  {
    if i < |s| && IsSpace(s[i]) then RunEnd(s, i + 1) else i
  }

  /** `s.split(/\s+/)`: the pieces between whitespace runs; text that starts
   *  or ends with whitespace gives an empty first or last piece. */
  function SplitWs(s: string): (parts: seq<string>)
    ensures |parts| >= 1
    ensures forall k :: 0 <= k < |parts| ==> NoSpace(parts[k])
    decreases |s|
  {
    var i := FirstSpace(s);
    if i == |s| then
      assert s[..i] == s;
      [s]
    else [s[..i]] + SplitWs(s[RunEnd(s, i)..])
  }

  lemma FirstSpaceOfJoin(a: string, b: string)
    requires NoSpace(a) && b != [] && IsSpace(b[0])
    ensures FirstSpace(a + b) == |a|
    decreases |a|
  {
    if a != [] {
      assert (a + b)[1..] == a[1..] + b;
      FirstSpaceOfJoin(a[1..], b);
    } else {
      assert a + b == b;
    }
  }

  lemma FirstSpaceOfWord(a: string)
    requires NoSpace(a)
    ensures FirstSpace(a) == |a|
    decreases |a|
  {
    if a != [] {
      FirstSpaceOfWord(a[1..]);
    }
  }

  /** Words joined by single spaces split back into those words. */
  lemma {:induction false} SplitWsJoin(words: seq<string>)
    requires words != []
    requires forall k :: 0 <= k < |words| ==> words[k] != "" && NoSpace(words[k])
    ensures SplitWs(Join(words, " ")) == words
    decreases |words|
  {
    if |words| == 1 {
      FirstSpaceOfWord(words[0]);
    } else {
      var w := words[0];
      var rest := Join(words[1..], " ");
      SplitWsJoin(words[1..]);
      JoinHead(words[1..], " ");
      assert words[1] != "" && NoSpace(words[1]);
      assert !IsSpace(rest[0]);
      assert Join(words, " ") == w + (" " + rest);
      SplitWsCons(w, rest);
      assert words == [w] + words[1..];
    }
  }

  /** A word followed by one space splits off as the first piece. */
  lemma SplitWsCons(w: string, rest: string)
    requires NoSpace(w) && rest != [] && !IsSpace(rest[0])
    ensures SplitWs(w + (" " + rest)) == [w] + SplitWs(rest)
  {
    var s := w + (" " + rest);
    FirstSpaceOfJoin(w, " " + rest);
    assert s[|w|] == ' ' && s[|w| + 1] == rest[0];
    assert RunEnd(s, |w| + 1) == |w| + 1;
    assert RunEnd(s, |w|) == |w| + 1;
    assert s[..|w|] == w && s[|w| + 1..] == rest;
  }

  lemma {:induction false} JoinHead(words: seq<string>, sep: string)
    requires words != [] && words[0] != ""
    ensures Join(words, sep) != "" && Join(words, sep)[0] == words[0][0]
  {
  }

  const DayNames: seq<string> := ["Dom", "Lun", "Mar", "Mi\U{E9}", "Jue", "Vie", "S\U{E1}b"]

  /** `days[parseInt(dow)]`, which is `undefined` outside 0..6. */
  function DayName(dow: string): string
  {
    var n := ParseInt(dow);
    if n.Some? && 0 <= n.value < 7 then DayNames[n.value] else "undefined"
  }

  function Clock(hr: string, min: string): string
  {
    PadStart(hr, 2, '0') + ":" + PadStart(min, 2, '0')
  }

  /** The description of a five-field expression. */
  function Describe(p: seq<string>, expr: string): (r: string)
    requires |p| == 5
    ensures r == expr || r != ""
  {
    var min, hr, dom, mon, dow := p[0], p[1], p[2], p[3], p[4];
    if min == "*" && hr == "*" then "Cada minuto"
    else if StartsWith(min, "*/") then "Cada " + min[2..] + " minutos"
    else if hr == "*" && dom == "*" && mon == "*" && dow == "*" then
      (if ',' in min then "Cada hora en minutos " + min else "Cada hora en el minuto " + min)
    else if StartsWith(hr, "*/") then "Cada " + hr[2..] + " horas en minuto " + min
    else if dom == "*" && mon == "*" && dow != "*" then DayName(dow) + " a las " + Clock(hr, min)
    else if dom == "*" && mon == "*" && dow == "*" then "Diario a las " + Clock(hr, min)
    else expr
  }

  /** `cronToHuman`: anything that is not five fields comes back as it was. */
  function CronToHuman(expr: string): (r: string)
    ensures |SplitWs(expr)| != 5 ==> r == expr
  {
    var p := SplitWs(expr);
    if |p| != 5 then expr else Describe(p, expr)
  }

  lemma CronFields(a: string, b: string, c: string, d: string, e: string)
    requires a != "" && NoSpace(a) && b != "" && NoSpace(b) && c != "" && NoSpace(c)
    requires d != "" && NoSpace(d) && e != "" && NoSpace(e)
    ensures SplitWs(a + " " + b + " " + c + " " + d + " " + e) == [a, b, c, d, e]
  {
    var w := [a, b, c, d, e];
    assert Join([e], " ") == e;
    JoinCons(d, [e], " ");
    assert [d] + [e] == [d, e];
    JoinCons(c, [d, e], " ");
    assert [c] + [d, e] == [c, d, e];
    JoinCons(b, [c, d, e], " ");
    assert [b] + [c, d, e] == [b, c, d, e];
    JoinCons(a, [b, c, d, e], " ");
    assert [a] + [b, c, d, e] == w;
    assert Join(w, " ") == a + " " + b + " " + c + " " + d + " " + e;
    SplitWsJoin(w);
  }

  /** '* * …' is every minute, whatever the other fields say. */
  lemma EveryMinute(dom: string, mon: string, dow: string)
    requires dom != "" && NoSpace(dom) && mon != "" && NoSpace(mon) && dow != "" && NoSpace(dow)
    ensures CronToHuman("* * " + dom + " " + mon + " " + dow) == "Cada minuto"
  {
    var expr := "* * " + dom + " " + mon + " " + dow;
    assert expr == "*" + " " + "*" + " " + dom + " " + mon + " " + dow;
    CronFields("*", "*", dom, mon, dow);
    var p := ["*", "*", dom, mon, dow];
    assert p[0] == "*" && p[1] == "*";
    assert Describe(p, expr) == "Cada minuto";
  }

  // A minute field of the form star, slash, N reads as every N minutes.
  lemma EveryNMinutes(n: string, hr: string, dom: string, mon: string, dow: string)
    requires NoSpace(n) && hr != "" && NoSpace(hr) && dom != "" && NoSpace(dom)
    requires mon != "" && NoSpace(mon) && dow != "" && NoSpace(dow)
    ensures CronToHuman("*/" + n + " " + hr + " " + dom + " " + mon + " " + dow) == "Cada " + n + " minutos"
  {
    var min := "*/" + n;
    assert NoSpace(min) by {
      assert forall j :: 2 <= j < |min| ==> min[j] == n[j - 2];
    }
    CronFields(min, hr, dom, mon, dow);
    assert StartsWith(min, "*/") && min[2..] == n;
  }

  lemma DigitsHaveNoSpace(s: string)
    requires AllDigits(s)
    ensures NoSpace(s)
  {
    forall j | 0 <= j < |s|
      ensures !IsSpace(s[j])
    {
      assert IsDigit(s[j]);
    }
  }

  lemma DescribeDaily(min: string, hr: string, expr: string)
    requires min != "" && AllDigits(min) && hr != "" && AllDigits(hr)
    ensures Describe([min, hr, "*", "*", "*"], expr) == "Diario a las " + Clock(hr, min)
  {
    assert IsDigit(min[0]) && IsDigit(hr[0]);
    assert min != "*" && hr != "*";
    assert !StartsWith(min, "*/") && !StartsWith(hr, "*/");
  }

  /** 'M H * * *' with numeric fields is a daily time, zero-padded. */
  lemma DailyAt(min: string, hr: string)
    requires min != "" && AllDigits(min) && hr != "" && AllDigits(hr)
    ensures CronToHuman(min + " " + hr + " * * *") == "Diario a las " + Clock(hr, min)
  {
    var expr := min + " " + hr + " * * *";
    assert expr == min + " " + hr + " " + "*" + " " + "*" + " " + "*";
    DigitsHaveNoSpace(min);
    DigitsHaveNoSpace(hr);
    CronFields(min, hr, "*", "*", "*");
    DescribeDaily(min, hr, expr);
  }

  // ---------------------------------------------------------------- esc

  /** The entity of one character. */
  function EscChar(c: char): string
  {
    if c == '&' then "&amp;"
    else if c == '<' then "&lt;"
    else if c == '>' then "&gt;"
    else if c == '"' then "&quot;"
    else [c]
  }

  /** Character-by-character escape: the reference for the chained
   *  replacements. */
  function EscapeHtml(s: string): string
    decreases |s|
  {
    if s == [] then "" else EscChar(s[0]) + EscapeHtml(s[1..])
  }

  /** `esc`: the four replacements in the order the script applies them,
   *  '&' first. */
  function Esc(s: string): string
  {
    MarkupPasses(ReplaceChar(s, '&', "&amp;"))
  }

  /** The three replacements after the one of '&'. */
  function MarkupPasses(t: string): string
  {
    ReplaceChar(ReplaceChar(ReplaceChar(t, '<', "&lt;"), '>', "&gt;"), '"', "&quot;")
  }

  lemma MarkupPassesAbsent(t: string)
    requires '<' !in t && '>' !in t && '"' !in t
    ensures MarkupPasses(t) == t
  {
    ReplaceAbsent(t, '<', "&lt;");
    ReplaceAbsent(t, '>', "&gt;");
    ReplaceAbsent(t, '"', "&quot;");
  }

  lemma EscConcat(a: string, b: string)
    ensures Esc(a + b) == Esc(a) + Esc(b)
  {
    ReplaceConcat(a, b, '&', "&amp;");
    var a1, b1 := ReplaceChar(a, '&', "&amp;"), ReplaceChar(b, '&', "&amp;");
    ReplaceConcat(a1, b1, '<', "&lt;");
    var a2, b2 := ReplaceChar(a1, '<', "&lt;"), ReplaceChar(b1, '<', "&lt;");
    ReplaceConcat(a2, b2, '>', "&gt;");
    var a3, b3 := ReplaceChar(a2, '>', "&gt;"), ReplaceChar(b2, '>', "&gt;");
    ReplaceConcat(a3, b3, '"', "&quot;");
  }

  lemma EscAmp()
    ensures Esc("&") == "&amp;"
  {
    ReplaceSingle('&', '&', "&amp;");
    MarkupPassesAbsent("&amp;");
  }

  lemma EscMarkup(c: char, e: string)
    requires (c == '<' && e == "&lt;") || (c == '>' && e == "&gt;") || (c == '"' && e == "&quot;")
    ensures Esc([c]) == e
  {
    ReplaceSingle(c, '&', "&amp;");
    ReplaceSingle(c, '<', "&lt;");
    if c == '<' {
      ReplaceAbsent(e, '>', "&gt;");
      ReplaceAbsent(e, '"', "&quot;");
    } else {
      ReplaceSingle(c, '>', "&gt;");
      if c == '>' {
        ReplaceAbsent(e, '"', "&quot;");
      } else {
        ReplaceSingle(c, '"', "&quot;");
      }
    }
  }

  lemma EscPlain(c: char)
    requires c != '&' && c != '<' && c != '>' && c != '"'
    ensures Esc([c]) == [c]
  {
    ReplaceSingle(c, '&', "&amp;");
    ReplaceSingle(c, '<', "&lt;");
    ReplaceSingle(c, '>', "&gt;");
    ReplaceSingle(c, '"', "&quot;");
  }

  /** One character through the four passes: no pass touches the entities
   *  an earlier pass wrote. */
  lemma EscOneChar(c: char)
    ensures Esc([c]) == EscChar(c)
  {
    if c == '&' {
      EscAmp();
    } else if c == '<' {
      EscMarkup(c, "&lt;");
    } else if c == '>' {
      EscMarkup(c, "&gt;");
    } else if c == '"' {
      EscMarkup(c, "&quot;");
    } else {
      EscPlain(c);
    }
  }

  lemma {:induction false} EscIsPerChar(s: string)
    ensures Esc(s) == EscapeHtml(s)
    decreases |s|
  {
    if s != [] {
      assert s == [s[0]] + s[1..];
      EscConcat([s[0]], s[1..]);
      EscOneChar(s[0]);
      EscIsPerChar(s[1..]);
    }
  }

  /** How a browser reads the four entities back. */
  function UnescapeHtml(s: string): string
    decreases |s|
  {
    if s == [] then ""
    else if StartsWith(s, "&amp;") then "&" + UnescapeHtml(s[5..])
    else if StartsWith(s, "&lt;") then "<" + UnescapeHtml(s[4..])
    else if StartsWith(s, "&gt;") then ">" + UnescapeHtml(s[4..])
    else if StartsWith(s, "&quot;") then "\"" + UnescapeHtml(s[6..])
    else [s[0]] + UnescapeHtml(s[1..])
  }

  lemma UnescapeAmp(rest: string)
    ensures UnescapeHtml("&amp;" + rest) == "&" + UnescapeHtml(rest)
  {
    var e := "&amp;" + rest;
    assert e[..5] == "&amp;" && e[5..] == rest;
  }

  lemma UnescapeLt(rest: string)
    ensures UnescapeHtml("&lt;" + rest) == "<" + UnescapeHtml(rest)
  {
    var e := "&lt;" + rest;
    assert e[1] == 'l' && e[..4] == "&lt;" && e[4..] == rest;
  }

  lemma UnescapeGt(rest: string)
    ensures UnescapeHtml("&gt;" + rest) == ">" + UnescapeHtml(rest)
  {
    var e := "&gt;" + rest;
    assert e[1] == 'g' && e[..4] == "&gt;" && e[4..] == rest;
  }

  lemma UnescapeQuot(rest: string)
    ensures UnescapeHtml("&quot;" + rest) == "\"" + UnescapeHtml(rest)
  {
    var e := "&quot;" + rest;
    assert e[1] == 'q' && e[..6] == "&quot;" && e[6..] == rest;
  }

  lemma UnescapeStep(c: char, rest: string)
    ensures UnescapeHtml(EscChar(c) + rest) == [c] + UnescapeHtml(rest)
  {
    if c == '&' {
      UnescapeAmp(rest);
    } else if c == '<' {
      UnescapeLt(rest);
    } else if c == '>' {
      UnescapeGt(rest);
    } else if c == '"' {
      UnescapeQuot(rest);
    } else {
      var e := [c] + rest;
      assert e[0] == c && e[1..] == rest;
    }
  }

  /** The escaped text shows in the page as the original text. */
  lemma {:induction false} EscRoundTrip(s: string)
    ensures UnescapeHtml(Esc(s)) == s
    decreases |s|
  {
    EscIsPerChar(s);
    if s != [] {
      EscIsPerChar(s[1..]);
      EscRoundTrip(s[1..]);
      UnescapeStep(s[0], EscapeHtml(s[1..]));
      assert s == [s[0]] + s[1..];
    }
  }

  lemma {:induction false} EscapeHtmlSafe(s: string)
    ensures '<' !in EscapeHtml(s) && '>' !in EscapeHtml(s) && '"' !in EscapeHtml(s)
    decreases |s|
  {
    if s != [] {
      EscapeHtmlSafe(s[1..]);
    }
  }

  /** No markup character survives the escape. */
  lemma EscSafe(s: string)
    ensures '<' !in Esc(s) && '>' !in Esc(s) && '"' !in Esc(s)
  {
    EscIsPerChar(s);
    EscapeHtmlSafe(s);
  }
}
