/** Merging of the common and the instance configuration, and the text of the server's
    configuration file. */
module ServerConfig {
  import opened Wrappers
  import opened Lines

  datatype SecretReference = SecretReference(name: string, keys: map<string, string>)

  /** A nil parameter map is the empty map: no reader of the field tells them apart. */
  datatype Config = Config(
    version: string,
    image: string,
    parameters: map<string, string>,
    secret: Option<SecretReference>)

  const EMPTY := Config("", "", map[], None)
  const DEFAULT_IMAGE := "mariadb:10.5"

  // ---------- merging ----------

  /** The instance's settings override the common ones, field by field and parameter by parameter. */
  function Merge(common: Config, specific: Config): Config {
    Config(
      if specific.version != "" then specific.version else common.version,
      if specific.image != "" then specific.image else common.image,
      common.parameters + specific.parameters,
      if specific.secret.Some? then specific.secret else common.secret)
  }

  /** Go's `for k, v := range extra { base[k] = v }`; keys come in no particular order. */
  method Overlay(base: map<string, string>, extra: map<string, string>) returns (m: map<string, string>)
    ensures m == base + extra
  {
    m := base;
    var rest := extra.Keys;
    while rest != {}
      invariant rest <= extra.Keys
      invariant m.Keys == base.Keys + (extra.Keys - rest)
      invariant forall k | k in m :: m[k] == if k in extra && k !in rest then extra[k] else base[k]
      decreases |rest|
    {
      var k :| k in rest;
      m := m[k := extra[k]];
      rest := rest - {k};
    }
  }

  method MergeMySQLConfigs(common: Config, specific: Config) returns (result: Config)
    ensures result == Merge(common, specific)
    ensures result.version == (if specific.version != "" then specific.version else common.version)
    ensures result.image == (if specific.image != "" then specific.image else common.image)
    ensures result.secret == (if specific.secret.Some? then specific.secret else common.secret)
    ensures result.parameters.Keys == common.parameters.Keys + specific.parameters.Keys
    ensures forall k | k in result.parameters ::
      result.parameters[k] == if k in specific.parameters then specific.parameters[k] else common.parameters[k]
  {
    result := EMPTY;
    result := result.(version := if specific.version != "" then specific.version else common.version);
    result := result.(image := if specific.image != "" then specific.image else common.image);
    var parameters := Overlay(map[], common.parameters);
    parameters := Overlay(parameters, specific.parameters);
    result := result.(parameters := parameters);
    result := result.(secret := if specific.secret.Some? then specific.secret else common.secret);
  }

  /** Merging is an associative override with the empty configuration as identity. */
  lemma MergeIsAMonoid(a: Config, b: Config, c: Config)
    ensures Merge(Merge(a, b), c) == Merge(a, Merge(b, c))
    ensures Merge(EMPTY, a) == a == Merge(a, EMPTY)
  {
    assert (a.parameters + b.parameters) + c.parameters == a.parameters + (b.parameters + c.parameters);
    assert map[] + a.parameters == a.parameters;
  }

  /** The image as `buildStatefulSet` resolves it, without merging. */
  function ContainerImage(common: Config, specific: Config): string {
    if specific.image != "" then specific.image
    else if common.image != "" then common.image
    else DEFAULT_IMAGE
  }

  function KeyOr(keys: map<string, string>, key: string, default: string): string {
    if key in keys && keys[key] != "" then keys[key] else default
  }

  /** The secret's name, user name key and password key as `getMariaDBConnectionInfo` resolves them. */
  function CredentialsSource(common: Config, specific: Config): (string, string, string) {
    var secret := if specific.secret.Some? then specific.secret else common.secret;
    match secret
    case None => ("", "MARIADB_USER", "MARIADB_PASSWORD")
    case Some(r) =>
      (r.name, KeyOr(r.keys, "username", "MARIADB_USER"), KeyOr(r.keys, "password", "MARIADB_PASSWORD"))
  }

  /** Resolving the image or the credentials of an instance directly or from its merged
      configuration is the same. */
  lemma ResolutionAgreesWithMerge(common: Config, specific: Config)
    ensures ContainerImage(common, specific) == ContainerImage(EMPTY, Merge(common, specific))
    ensures CredentialsSource(common, specific) == CredentialsSource(EMPTY, Merge(common, specific))
    ensures CredentialsSource(common, specific) ==
      match Merge(common, specific).secret
      case None => ("", "MARIADB_USER", "MARIADB_PASSWORD")
      case Some(secret) =>
        (secret.name,
         if "username" in secret.keys && secret.keys["username"] != "" then secret.keys["username"] else "MARIADB_USER",
         if "password" in secret.keys && secret.keys["password"] != "" then secret.keys["password"] else "MARIADB_PASSWORD")
  {
  }

  // ---------- the text ----------

  /** A line of the file: one the server skips, or a setting. */
  datatype Item = Skipped(text: string) | Setting(key: string, value: string)

  function Line(item: Item): string {
    match item
    case Skipped(text) => text
    case Setting(k, v) => k + " = " + v
  }

  function Render(items: seq<Item>): string {
    if items == [] then ""
    else Render(items[..|items| - 1]) + Line(items[|items| - 1]) + "\n"
  }

  function Header(): seq<Item> {
    [Skipped("[mysqld]"),
     Setting("character-set-server", "utf8mb4"),
     Setting("collation-server", "utf8mb4_unicode_ci")]
  }

  function RoleLines(isPrimary: bool): seq<Item> {
    if isPrimary then
      [Skipped("# Configuration du serveur primaire"), Setting("log_bin", "mysql-bin"), Setting("server_id", "1")]
    else
      [Skipped("# Configuration du serveur secondaire"), Setting("server_id", "2"), Setting("read_only", "ON")]
  }

  /** A durability setting is left to the parameters when these give it. */
  function Durability(key: string, isPrimary: bool, other: string, params: map<string, string>): seq<Item> {
    if key in params then [] else [Setting(key, if isPrimary then "1" else other)]
  }

  function Preamble(isPrimary: bool, params: map<string, string>): seq<Item> {
    Header() + RoleLines(isPrimary)
    + Durability("innodb_flush_log_at_trx_commit", isPrimary, "2", params)
    + Durability("sync_binlog", isPrimary, "0", params)
  }

  /** `order` is an iteration order of the map: every key, once. */
  ghost predicate Enumerates(order: seq<string>, params: map<string, string>) {
    && (forall k :: k in order <==> k in params)
    && (forall i, j | 0 <= i < j < |order| :: order[i] != order[j])
  }

  function Settings(params: map<string, string>, order: seq<string>): seq<Item> {
    if order == [] then []
    else
      var k := order[|order| - 1];
      Settings(params, order[..|order| - 1]) + (if k in params then [Setting(k, params[k])] else [])
  }

  function Text(isPrimary: bool, params: map<string, string>, order: seq<string>): string {
    Render(Preamble(isPrimary, params) + Settings(params, order))
  }

  // ---------- reading it back ----------

  predicate IsSpace(c: char) { c == ' ' || c == '\t' || c == '\r' }

  /** The number of blanks from position `from` on, and before position `to`. */
  function SkipFrom(s: string, from: nat): (n: nat)
    requires from <= |s|
    ensures from <= n <= |s|
    ensures forall i | from <= i < n :: IsSpace(s[i])
    ensures n < |s| ==> !IsSpace(s[n])
    decreases |s| - from
  {
    if from < |s| && IsSpace(s[from]) then SkipFrom(s, from + 1) else from
  }

  function BackFrom(s: string, to: nat): (n: nat)
    requires to <= |s|
    ensures n <= to
    ensures n > 0 ==> !IsSpace(s[n - 1])
    ensures forall i | n <= i < to :: IsSpace(s[i])
  {
    if to > 0 && IsSpace(s[to - 1]) then BackFrom(s, to - 1) else to
  }

  function TrimLeft(s: string): (t: string)
    ensures t == "" || !IsSpace(t[0])
  {
    s[SkipFrom(s, 0)..]
  }

  function TrimRight(s: string): (t: string)
    ensures t == "" || !IsSpace(t[|t| - 1])
    ensures t <= s
  {
    s[..BackFrom(s, |s|)]
  }

  function Trim(s: string): string { TrimRight(TrimLeft(s)) }

  predicate StartsSkipped(s: string) {
    s != "" && (s[0] == '#' || s[0] == ';' || s[0] == '[')
  }

  /** What is left of a line once leading blanks are gone. */
  function ReadTrimmed(l: string): Option<(string, string)> {
    if l == "" || StartsSkipped(l) then None
    else
      var n := Find('=', l);
      if n == |l| then Some((TrimRight(l), ""))
      else Some((TrimRight(l[..n]), Trim(l[n + 1..])))
  }

  /** What one line of an option file sets: blanks around key and value do not count,
      blank lines, comments and section headers set nothing. */
  function ReadLine(line: string): Option<(string, string)> {
    ReadTrimmed(TrimLeft(line))
  }

  function Assignment(setting: Option<(string, string)>): map<string, string> {
    match setting
    case None => map[]
    case Some((k, v)) => map[k := v]
  }

  type LineReader = string -> Option<(string, string)>

  /** What a sequence of lines sets; the last value given to a key wins. */
  function Assigned(read: LineReader, lines: seq<string>): map<string, string> {
    if lines == [] then map[]
    else Assigned(read, lines[..|lines| - 1]) + Assignment(read(lines[|lines| - 1]))
  }

  function ReadText(text: string): map<string, string> {
    Assigned(ReadLine, Split(text))
  }

  // ---------- what a rendered text means ----------

  /** Keys that survive the trip: no blank at either end, no separator, no comment or section start. */
  predicate KeyOk(k: string) {
    && TrimLeft(k) == k && TrimRight(k) == k
    && Lacks('=', k)
    && !StartsSkipped(k)
  }

  lemma TrimLeftSkipsBlanks(s: string, n: nat)
    requires n <= |s| && (forall i | 0 <= i < n :: IsSpace(s[i]))
    ensures TrimLeft(s) == TrimLeft(s[n..])
  {
  }

  lemma TrimLeftKeeps(s: string)
    requires s != "" && !IsSpace(s[0])
    ensures TrimLeft(s) == s
  {
  }

  lemma TrimRightDropsOne(k: string)
    requires TrimRight(k) == k
    ensures TrimRight(k + " ") == k
  {
    assert (k + " ")[..|k|] == k;
  }

  lemma TrimDropsOne(v: string)
    ensures Trim(" " + v) == Trim(v)
  {
    TrimLeftSkipsBlanks(" " + v, 1);
    assert (" " + v)[1..] == v;
  }

  lemma ReadAt(l: string, n: nat)
    requires n < |l| && l[n] == '=' && Lacks('=', l[..n]) && !StartsSkipped(l)
    ensures ReadTrimmed(l) == Some((TrimRight(l[..n]), Trim(l[n + 1..])))
  {
    FindIs('=', l, n);
  }

  lemma GoodKeyIsKept(k: string, v: string)
    requires KeyOk(k)
    ensures ReadLine(k + " = " + v) == Some((k, Trim(v)))
  {
    hide TrimLeft, TrimRight, Trim, ReadTrimmed;
    var line := k + " = " + v;
    if k == "" {
      TrimLeftSkipsBlanks(line, 1);
      TrimLeftKeeps(line[1..]);
      ReadAt(line[1..], 0);
      assert line[1..][1..] == " " + v;
    } else {
      assert !IsSpace(k[0]);
      assert line[0] == k[0];
      TrimLeftKeeps(line);
      assert line[..|k| + 1] == k + " ";
      ReadAt(line, |k| + 1);
      TrimRightDropsOne(k);
      assert line[|k| + 2..] == " " + v;
    }
    TrimDropsOne(v);
  }

  lemma PieceIsOkKey(piece: string)
    requires piece == "" || (!IsSpace(piece[0]) && !StartsSkipped(piece))
    requires Lacks('=', piece)
    ensures KeyOk(TrimRight(piece))
  {
  }

  /** The key read from a line is a trimmed piece of it without separator or comment start. */
  lemma KeyReadIsOk(l: string)
    requires l == "" || !IsSpace(l[0])
    requires ReadTrimmed(l).Some?
    ensures KeyOk(ReadTrimmed(l).value.0)
  {
    var n := Find('=', l);
    assert l[..|l|] == l;
    var piece := l[..n];
    assert n > 0 ==> piece[0] == l[0];
    PieceIsOkKey(piece);
  }

  /** One setting line reads back as its key and trimmed value exactly for the keys above. */
  lemma LineRoundTrip(k: string, v: string)
    ensures ReadLine(Line(Setting(k, v))) == Some((k, Trim(v))) <==> KeyOk(k)
  {
    if KeyOk(k) {
      GoodKeyIsKept(k, v);
    } else {
      if ReadLine(k + " = " + v).Some? {
        KeyReadIsOk(TrimLeft(k + " = " + v));
      }
    }
  }

  // ---------- the meaning of the whole text ----------

  predicate ItemOk(item: Item) {
    && Lacks('\n', Line(item))
    && match item
       case Skipped(text) => StartsSkipped(text)
       case Setting(k, _) => KeyOk(k)
  }

  /** The settings of a list of items, values normalised by `norm`; later ones win. */
  function Effect(norm: string -> string, items: seq<Item>): map<string, string> {
    if items == [] then map[]
    else Effect(norm, items[..|items| - 1]) + Assignment(Reads(norm, items[|items| - 1]))
  }

  function Reads(norm: string -> string, item: Item): Option<(string, string)> {
    if item.Setting? then Some((item.key, norm(item.value))) else None
  }

  lemma ItemReadsBack(item: Item)
    requires ItemOk(item)
    ensures ReadLine(Line(item)) == Reads(Trim, item)
  {
    match item
    case Skipped(text) => TrimLeftKeeps(text);
    case Setting(k, v) => LineRoundTrip(k, v);
  }

  function RenderedLines(items: seq<Item>): seq<string> {
    if items == [] then [] else RenderedLines(items[..|items| - 1]) + [Line(items[|items| - 1])]
  }

  lemma {:induction false} SplitRender(items: seq<Item>)
    requires forall item | item in items :: Lacks('\n', Line(item))
    ensures EndsLine(Render(items))
    ensures Split(Render(items)) == RenderedLines(items)
  {
    if items != [] {
      var init, last := items[..|items| - 1], items[|items| - 1];
      SplitRender(init);
      SplitSnoc(Render(init), Line(last));
    }
  }

  lemma {:induction false} AssignedIsEffect(read: LineReader, norm: string -> string, items: seq<Item>)
    requires forall item | item in items :: read(Line(item)) == Reads(norm, item)
    ensures Assigned(read, RenderedLines(items)) == Effect(norm, items)
  {
    if items != [] {
      var init := items[..|items| - 1];
      AssignedIsEffect(read, norm, init);
      var lines := RenderedLines(items);
      assert lines[..|lines| - 1] == RenderedLines(init);
    }
  }

  /** A rendered text reads back as the settings it was rendered from. */
  lemma ReadRender(items: seq<Item>)
    requires forall item | item in items :: ItemOk(item)
    ensures ReadText(Render(items)) == Effect(Trim, items)
  {
    SplitRender(items);
    forall item | item in items ensures ReadLine(Line(item)) == Reads(Trim, item) {
      ItemReadsBack(item);
    }
    AssignedIsEffect(ReadLine, Trim, items);
  }

  /** The settings of a role before any parameter. */
  function RoleDefaults(isPrimary: bool): map<string, string> {
    map["character-set-server" := "utf8mb4"] + map["collation-server" := "utf8mb4_unicode_ci"]
    + if isPrimary then map["log_bin" := "mysql-bin"] + map["server_id" := "1"]
      else map["server_id" := "2"] + map["read_only" := "ON"]
  }

  function Defaults(isPrimary: bool): map<string, string> {
    RoleDefaults(isPrimary)
    + map["innodb_flush_log_at_trx_commit" := if isPrimary then "1" else "2"]
    + map["sync_binlog" := if isPrimary then "1" else "0"]
  }

  function Normalised(norm: string -> string, params: map<string, string>): map<string, string> {
    map k | k in params :: norm(params[k])
  }

  ghost predicate ParametersOk(params: map<string, string>) {
    forall k | k in params :: ItemOk(Setting(k, params[k]))
  }

  lemma PlainSettingOk(k: string, v: string)
    requires k != "" && !IsSpace(k[0]) && !IsSpace(k[|k| - 1]) && !StartsSkipped(k)
    requires Lacks('=', k) && Lacks('\n', k) && Lacks('\n', v)
    ensures ItemOk(Setting(k, v))
  {
  }

  lemma SkippedOk(text: string)
    requires StartsSkipped(text) && Lacks('\n', text)
    ensures ItemOk(Skipped(text))
  {
  }

  lemma HeaderOk()
    ensures ItemOk(Skipped("[mysqld]"))
    ensures ItemOk(Skipped("# Configuration du serveur primaire"))
    ensures ItemOk(Skipped("# Configuration du serveur secondaire"))
  {
    hide ItemOk;
    SkippedOk("[mysqld]");
    SkippedOk("# Configuration du serveur primaire");
    SkippedOk("# Configuration du serveur secondaire");
  }

  lemma LongNamesOk()
    ensures ItemOk(Setting("character-set-server", "utf8mb4"))
    ensures ItemOk(Setting("collation-server", "utf8mb4_unicode_ci"))
  {
    PlainSettingOk("character-set-server", "utf8mb4");
    PlainSettingOk("collation-server", "utf8mb4_unicode_ci");
  }

  lemma ShortNamesOk()
    ensures ItemOk(Setting("log_bin", "mysql-bin"))
    ensures ItemOk(Setting("server_id", "1"))
    ensures ItemOk(Setting("server_id", "2"))
    ensures ItemOk(Setting("read_only", "ON"))
  {
    PlainSettingOk("log_bin", "mysql-bin");
    PlainSettingOk("server_id", "1");
    PlainSettingOk("server_id", "2");
    PlainSettingOk("read_only", "ON");
  }

  lemma DurabilityNamesOk()
    ensures forall v | v == "0" || v == "1" || v == "2" ::
              ItemOk(Setting("innodb_flush_log_at_trx_commit", v)) && ItemOk(Setting("sync_binlog", v))
  {
    hide ItemOk, KeyOk;
    forall v | v == "0" || v == "1" || v == "2"
      ensures ItemOk(Setting("innodb_flush_log_at_trx_commit", v)) && ItemOk(Setting("sync_binlog", v))
    {
      PlainSettingOk("innodb_flush_log_at_trx_commit", v);
      PlainSettingOk("sync_binlog", v);
    }
  }

  lemma PreambleHas(isPrimary: bool, params: map<string, string>, ok: Item -> bool)
    requires ok(Skipped("[mysqld]"))
    requires ok(Skipped("# Configuration du serveur primaire"))
    requires ok(Skipped("# Configuration du serveur secondaire"))
    requires ok(Setting("character-set-server", "utf8mb4"))
    requires ok(Setting("collation-server", "utf8mb4_unicode_ci"))
    requires ok(Setting("log_bin", "mysql-bin"))
    requires ok(Setting("server_id", "1")) && ok(Setting("server_id", "2"))
    requires ok(Setting("read_only", "ON"))
    requires forall v | v == "0" || v == "1" || v == "2" ::
               ok(Setting("innodb_flush_log_at_trx_commit", v)) && ok(Setting("sync_binlog", v))
    ensures forall item | item in Preamble(isPrimary, params) :: ok(item)
  {
  }

  lemma PreambleOk(isPrimary: bool, params: map<string, string>)
    ensures forall item | item in Preamble(isPrimary, params) :: ItemOk(item)
  {
    HeaderOk();
    LongNamesOk();
    ShortNamesOk();
    DurabilityNamesOk();
    PreambleHas(isPrimary, params, ItemOk);
  }

  // ---------- from items to role, common and instance settings ----------

  lemma OverrideIsAssociative<K, V>(a: map<K, V>, b: map<K, V>, c: map<K, V>)
    ensures (a + b) + c == a + (b + c)
  {
  }

  lemma {:induction false} EffectAppend(norm: string -> string, a: seq<Item>, b: seq<Item>)
    ensures Effect(norm, a + b) == Effect(norm, a) + Effect(norm, b)
  {
    if b == [] {
      assert a + b == a;
    } else {
      var init, last := b[..|b| - 1], b[|b| - 1];
      assert (a + b)[..|a + b| - 1] == a + init;
      EffectAppend(norm, a, init);
      OverrideIsAssociative(Effect(norm, a), Effect(norm, init), Assignment(Reads(norm, last)));
    }
  }

  lemma EffectOfSection(norm: string -> string, text: string, k: string, v: string, l: string, w: string)
    ensures Effect(norm, [Skipped(text), Setting(k, v), Setting(l, w)]) == map[k := norm(v)] + map[l := norm(w)]
  {
    var x, y, z := Skipped(text), Setting(k, v), Setting(l, w);
    assert [x, y, z][..2] == [x, y] && [x, y][..1] == [x] && [x][..0] == [];
    assert Effect(norm, [x]) == map[];
    assert Effect(norm, [x, y]) == map[k := norm(v)];
  }

  lemma {:induction false} EffectSettings(norm: string -> string, params: map<string, string>, order: seq<string>)
    requires forall k | k in order :: k in params
    ensures Effect(norm, Settings(params, order)) == map k | k in order :: norm(params[k])
  {
    if order != [] {
      var init, k := order[..|order| - 1], order[|order| - 1];
      EffectSettings(norm, params, init);
      var items := Settings(params, order);
      assert items[..|items| - 1] == Settings(params, init);
    }
  }

  /** A setting that is overridden anyway may be left out. */
  lemma LeaveOut(base: map<string, string>, key: string, value: string, skip: bool, over: map<string, string>)
    requires skip ==> key in over
    ensures (base + if skip then map[] else map[key := value]) + over == (base + map[key := value]) + over
  {
  }

  lemma EffectOfDurability(norm: string -> string, key: string, isPrimary: bool, other: string, params: map<string, string>)
    ensures Effect(norm, Durability(key, isPrimary, other, params))
         == if key in params then map[] else map[key := norm(if isPrimary then "1" else other)]
  {
  }

  ghost predicate KeepsDefaults(norm: string -> string) {
    && norm("utf8mb4") == "utf8mb4" && norm("utf8mb4_unicode_ci") == "utf8mb4_unicode_ci"
    && norm("mysql-bin") == "mysql-bin" && norm("ON") == "ON"
    && norm("0") == "0" && norm("1") == "1" && norm("2") == "2"
  }

  lemma EffectOfRole(norm: string -> string, isPrimary: bool)
    requires KeepsDefaults(norm)
    ensures Effect(norm, Header() + RoleLines(isPrimary)) == RoleDefaults(isPrimary)
  {
    var h, r := Header(), RoleLines(isPrimary);
    EffectAppend(norm, h, r);
    EffectOfSection(norm, "[mysqld]", "character-set-server", "utf8mb4", "collation-server", "utf8mb4_unicode_ci");
    if isPrimary {
      EffectOfSection(norm, "# Configuration du serveur primaire", "log_bin", "mysql-bin", "server_id", "1");
    } else {
      EffectOfSection(norm, "# Configuration du serveur secondaire", "server_id", "2", "read_only", "ON");
    }
  }

  lemma EffectOfPreamble(norm: string -> string, isPrimary: bool, params: map<string, string>, over: map<string, string>)
    requires KeepsDefaults(norm) && over.Keys == params.Keys
    ensures Effect(norm, Preamble(isPrimary, params)) + over == Defaults(isPrimary) + over
  {
    var k1, k2 := "innodb_flush_log_at_trx_commit", "sync_binlog";
    var d1, d2 := Durability(k1, isPrimary, "2", params), Durability(k2, isPrimary, "0", params);
    var v1, v2 := if isPrimary then "1" else "2", if isPrimary then "1" else "0";
    var lines := Header() + RoleLines(isPrimary);
    EffectAppend(norm, lines, d1);
    EffectAppend(norm, lines + d1, d2);
    EffectOfRole(norm, isPrimary);
    EffectOfDurability(norm, k1, isPrimary, "2", params);
    EffectOfDurability(norm, k2, isPrimary, "0", params);
    var base := RoleDefaults(isPrimary);
    var first := Effect(norm, d1);
    LeaveOut(base + first, k2, v2, k2 in params, over);
    OverrideIsAssociative(base + first, map[k2 := v2], over);
    LeaveOut(base, k1, v1, k1 in params, map[k2 := v2] + over);
    OverrideIsAssociative(base + map[k1 := v1], map[k2 := v2], over);
  }

  lemma TrimKeepsNames()
    ensures Trim("utf8mb4") == "utf8mb4" && Trim("utf8mb4_unicode_ci") == "utf8mb4_unicode_ci"
    ensures Trim("mysql-bin") == "mysql-bin"
  {
  }

  lemma TrimKeepsValues()
    ensures Trim("ON") == "ON" && Trim("0") == "0" && Trim("1") == "1" && Trim("2") == "2"
  {
  }

  lemma TrimKeepsDefaults()
    ensures KeepsDefaults(Trim)
  {
    TrimKeepsNames();
    TrimKeepsValues();
  }

  lemma EffectOfText(norm: string -> string, isPrimary: bool, params: map<string, string>, order: seq<string>)
    requires KeepsDefaults(norm) && Enumerates(order, params)
    ensures Effect(norm, Preamble(isPrimary, params) + Settings(params, order))
         == Defaults(isPrimary) + Normalised(norm, params)
  {
    EffectAppend(norm, Preamble(isPrimary, params), Settings(params, order));
    EffectSettings(norm, params, order);
    var over := Normalised(norm, params);
    assert (map k | k in order :: norm(params[k])) == over;
    EffectOfPreamble(norm, isPrimary, params, over);
  }

  lemma {:induction false} SettingsOk(params: map<string, string>, order: seq<string>)
    requires ParametersOk(params)
    ensures forall item | item in Settings(params, order) :: ItemOk(item)
  {
    hide ItemOk;
    if order != [] {
      SettingsOk(params, order[..|order| - 1]);
    }
  }

  /** The compiled file means: the defaults of the role, overridden by the parameters. This
      holds for every iteration order, so any two compilations agree in meaning. */
  lemma TextMeans(isPrimary: bool, params: map<string, string>, order: seq<string>)
    requires ParametersOk(params) && Enumerates(order, params)
    ensures ReadText(Text(isPrimary, params, order)) == Defaults(isPrimary) + Normalised(Trim, params)
  {
    PreambleOk(isPrimary, params);
    SettingsOk(params, order);
    ReadRender(Preamble(isPrimary, params) + Settings(params, order));
    TrimKeepsDefaults();
    EffectOfText(Trim, isPrimary, params, order);
  }

  lemma {:induction false} SplitLinesLackBreaks(text: string)
    ensures forall line | line in Split(text) :: Lacks('\n', line)
    decreases |text|
  {
    if text != "" {
      var n := Find('\n', text);
      if n < |text| { SplitLinesLackBreaks(text[n + 1..]); }
    }
  }

  predicate Clean(k: string, v: string) { KeyOk(k) && Lacks('\n', k) && Lacks('\n', v) }

  lemma TrimsLack(c: char, s: string)
    requires Lacks(c, s)
    ensures Lacks(c, TrimLeft(s)) && Lacks(c, TrimRight(s)) && Lacks(c, Trim(s))
  {
  }

  /** What is read from one line could have been written on one. */
  lemma ReadLineIsClean(line: string)
    requires Lacks('\n', line)
    ensures ReadLine(line).Some? ==> Clean(ReadLine(line).value.0, ReadLine(line).value.1)
  {
    hide KeyOk, Trim, TrimLeft, TrimRight;
    var l := TrimLeft(line);
    TrimsLack('\n', line);
    if ReadTrimmed(l).Some? {
      KeyReadIsOk(l);
      var n := Find('=', l);
      assert l[..|l|] == l;
      TrimsLack('\n', l[..n]);
      if n < |l| { TrimsLack('\n', l[n + 1..]); }
    }
  }

  ghost predicate AllClean(settings: map<string, string>) { forall k | k in settings :: Clean(k, settings[k]) }

  lemma {:induction false} AssignedIsClean(lines: seq<string>)
    requires forall line | line in lines :: Lacks('\n', line)
    ensures AllClean(Assigned(ReadLine, lines))
  {
    hide ReadLine, Clean;
    if lines != [] {
      var init, last := lines[..|lines| - 1], lines[|lines| - 1];
      AssignedIsClean(init);
      ReadLineIsClean(last);
      assert Assigned(ReadLine, lines) == Assigned(ReadLine, init) + Assignment(ReadLine(last));
    }
  }

  lemma TrimKeepsInner(v: string, i: nat)
    requires i < |v| && !IsSpace(v[i])
    ensures v[i] in Trim(v)
  {
    var l, n := TrimLeft(v), SkipFrom(v, 0);
    assert n <= i && l[i - n] == v[i];
    assert Trim(v)[i - n] == v[i];
  }

  lemma CleanIsOk(k: string, v: string)
    requires Clean(k, Trim(v))
    ensures ItemOk(Setting(k, v))
  {
    hide Trim, KeyOk;
    forall i | 0 <= i < |v| && !IsSpace(v[i]) {
      TrimKeepsInner(v, i);
    }
    assert Lacks('\n', v);
  }

  lemma ReadBackIsOk(isPrimary: bool, params: map<string, string>, text: string)
    requires ReadText(text) == Defaults(isPrimary) + Normalised(Trim, params)
    ensures ParametersOk(params)
  {
    hide Trim, Clean, Defaults, ItemOk;
    SplitLinesLackBreaks(text);
    AssignedIsClean(Split(text));
    var settings := ReadText(text);
    assert AllClean(settings);
    forall k | k in params ensures ItemOk(Setting(k, params[k])) {
      assert k in Normalised(Trim, params) && settings[k] == Trim(params[k]);
      assert k in settings;
      assert Clean(k, settings[k]);
      CleanIsOk(k, params[k]);
    }
  }

  /** The compiled file means what is declared exactly if every key and value can be written on a
      line of its own and the key survives the trip. */
  lemma TextMeansIff(isPrimary: bool, params: map<string, string>, order: seq<string>)
    requires Enumerates(order, params)
    ensures ReadText(Text(isPrimary, params, order)) == Defaults(isPrimary) + Normalised(Trim, params)
      <==> ParametersOk(params)
  {
    hide Text, Trim, Defaults, ParametersOk, ReadText;
    if ParametersOk(params) {
      TextMeans(isPrimary, params, order);
    } else if ReadText(Text(isPrimary, params, order)) == Defaults(isPrimary) + Normalised(Trim, params) {
      ReadBackIsOk(isPrimary, params, Text(isPrimary, params, order));
      assert false;
    }
  }

  lemma NormalisedMerge(norm: string -> string, base: map<string, string>, c: map<string, string>, i: map<string, string>)
    ensures base + Normalised(norm, c + i) == base + Normalised(norm, c) + Normalised(norm, i)
  {
  }

  /** Role defaults, overridden by the common parameters, overridden by the instance's: exactly if
      what is left after the override can be written. */
  lemma CompilationPreservesMeaning(isPrimary: bool, common: Config, specific: Config, order: seq<string>)
    requires Enumerates(order, Merge(common, specific).parameters)
    ensures ReadText(Text(isPrimary, Merge(common, specific).parameters, order))
         == Defaults(isPrimary) + Normalised(Trim, common.parameters) + Normalised(Trim, specific.parameters)
      <==> ParametersOk(Merge(common, specific).parameters)
  {
    hide ReadText, Text, Defaults, ParametersOk, Trim;
    TextMeansIff(isPrimary, Merge(common, specific).parameters, order);
    NormalisedMerge(Trim, Defaults(isPrimary), common.parameters, specific.parameters);
  }

  // ---------- the compiler itself ----------

  function Written(config: string, item: Item): string {
    config + Line(item) + "\n"
  }

  lemma RenderSnoc(items: seq<Item>, item: Item)
    ensures Render(items + [item]) == Written(Render(items), item)
  {
  }

  /** `order` is the order in which this run of the program iterates over the map. */
  method GenerateMariaDBConfig(isPrimary: bool, params: map<string, string>, order: seq<string>)
    returns (config: string)
    requires Enumerates(order, params)
    ensures config == Text(isPrimary, params, order)
  {
    hide Render, Line;
    config := WriteBase(isPrimary);
    ghost var items := Header() + RoleLines(isPrimary);
    var key := "innodb_flush_log_at_trx_commit";
    if key !in params {
      RenderSnoc(items, Setting(key, if isPrimary then "1" else "2"));
      config := Written(config, Setting(key, if isPrimary then "1" else "2"));
    }
    assert key in params ==> items + Durability(key, isPrimary, "2", params) == items;
    items := items + Durability(key, isPrimary, "2", params);
    key := "sync_binlog";
    if key !in params {
      RenderSnoc(items, Setting(key, if isPrimary then "1" else "0"));
      config := Written(config, Setting(key, if isPrimary then "1" else "0"));
    }
    assert key in params ==> items + Durability(key, isPrimary, "0", params) == items;
    items := items + Durability(key, isPrimary, "0", params);
    assert items + Settings(params, order[..0]) == items;
    for i := 0 to |order|
      invariant config == Render(items + Settings(params, order[..i]))
    {
      var k := order[i];
      assert order[..i + 1][..i] == order[..i];
      RenderSnoc(items + Settings(params, order[..i]), Setting(k, params[k]));
      assert items + Settings(params, order[..i + 1]) == items + Settings(params, order[..i]) + [Setting(k, params[k])];
      config := Written(config, Setting(k, params[k]));
    }
    assert order[..|order|] == order;
  }

  method WriteBase(isPrimary: bool) returns (config: string)
    ensures config == Render(Header() + RoleLines(isPrimary))
  {
    config := Written("", Skipped("[mysqld]"));
    config := Written(config, Setting("character-set-server", "utf8mb4"));
    config := Written(config, Setting("collation-server", "utf8mb4_unicode_ci"));
    if isPrimary {
      config := Written(config, Skipped("# Configuration du serveur primaire"));
      config := Written(config, Setting("log_bin", "mysql-bin"));
      config := Written(config, Setting("server_id", "1"));
    } else {
      config := Written(config, Skipped("# Configuration du serveur secondaire"));
      config := Written(config, Setting("server_id", "2"));
      config := Written(config, Setting("read_only", "ON"));
    }
    var h, r := Header(), RoleLines(isPrimary);
    RenderOfThree([], h);
    assert [] + h == h;
    RenderOfThree(h, r);
  }

  lemma RenderOfThree(items: seq<Item>, three: seq<Item>)
    requires |three| == 3
    ensures Render(items + three) == Written(Written(Written(Render(items), three[0]), three[1]), three[2])
  {
    hide Render;
    RenderSnoc(items, three[0]);
    RenderSnoc(items + [three[0]], three[1]);
    RenderSnoc(items + [three[0]] + [three[1]], three[2]);
    assert items + three == items + [three[0]] + [three[1]] + [three[2]];
  }

  lemma {:induction false} RenderedAt(items: seq<Item>, i: nat)
    requires i < |items|
    ensures |RenderedLines(items)| == |items| && RenderedLines(items)[i] == Line(items[i])
  {
    if items != [] {
      var init := items[..|items| - 1];
      if init != [] { RenderedAt(init, if i < |init| then i else 0); }
    }
  }

  lemma {:induction false} SettingAt(params: map<string, string>, order: seq<string>, i: nat)
    requires i < |order| && forall k | k in order :: k in params
    ensures |Settings(params, order)| == |order| && Settings(params, order)[i] == Setting(order[i], params[order[i]])
  {
    var init := order[..|order| - 1];
    if init != [] { SettingAt(params, init, if i < |init| then i else 0); }
  }

  lemma LinesOfText(isPrimary: bool, params: map<string, string>, order: seq<string>)
    requires ParametersOk(params) && Enumerates(order, params)
    ensures Split(Text(isPrimary, params, order)) == RenderedLines(Preamble(isPrimary, params) + Settings(params, order))
  {
    hide Preamble, Settings;
    PreambleOk(isPrimary, params);
    SettingsOk(params, order);
    SplitRender(Preamble(isPrimary, params) + Settings(params, order));
  }

  lemma KeyAtLine(isPrimary: bool, params: map<string, string>, order: seq<string>, i: nat)
    requires ParametersOk(params) && Enumerates(order, params) && i < |order|
    ensures var lines, n := Split(Text(isPrimary, params, order)), |Preamble(isPrimary, params)|;
      && |lines| == n + |order|
      && ReadLine(lines[n + i]) == Some((order[i], Trim(params[order[i]])))
  {
    hide Preamble, Text, Split, ReadLine, Trim, ItemOk, Line;
    LinesOfText(isPrimary, params, order);
    SettingAt(params, order, i);
    var items := Preamble(isPrimary, params) + Settings(params, order);
    RenderedAt(items, |Preamble(isPrimary, params)| + i);
    assert ItemOk(Setting(order[i], params[order[i]]));
    ItemReadsBack(Setting(order[i], params[order[i]]));
  }

  /** The text does depend on the order, always: of the same parameters, two iteration orders give
      the same text only if they are the same. A stored copy can therefore differ from the text of
      the next pass although nothing was configured anew. */
  lemma TextsAgreeIff(isPrimary: bool, params: map<string, string>, order: seq<string>, other: seq<string>)
    requires ParametersOk(params) && Enumerates(order, params) && Enumerates(other, params)
    ensures Text(isPrimary, params, order) == Text(isPrimary, params, other) <==> order == other
  {
    hide Text, ParametersOk, Enumerates, Preamble, ReadLine, Split;
    if Text(isPrimary, params, order) == Text(isPrimary, params, other) {
      if order != [] { KeyAtLine(isPrimary, params, order, 0); }
      if other != [] { KeyAtLine(isPrimary, params, other, 0); }
      EmptyOrders(params, order, other);
      forall i | 0 <= i < |order| ensures order[i] == other[i] {
        KeyAtLine(isPrimary, params, order, i);
        KeyAtLine(isPrimary, params, other, i);
      }
    }
  }

  lemma EmptyOrders(params: map<string, string>, order: seq<string>, other: seq<string>)
    requires Enumerates(order, params) && Enumerates(other, params)
    ensures order == [] <==> other == []
  {
    if order != [] { assert order[0] in params; }
    if other != [] { assert other[0] in params; }
  }

  /** For instance, a value with a line break is read as two settings. */
  lemma LineBreakMakesTwoSettings(isPrimary: bool, k: string, v: string, l: string, w: string)
    requires ItemOk(Setting(k, v)) && ItemOk(Setting(l, w))
    ensures var params := map[k := v + "\n" + Line(Setting(l, w))];
      && Enumerates([k], params)
      && ReadText(Text(isPrimary, params, [k])) == Defaults(isPrimary) + map[k := Trim(v)] + map[l := Trim(w)]
  {
    hide ItemOk, Render, Effect, Preamble, ReadText, Trim, Defaults;
    var params := map[k := v + "\n" + Line(Setting(l, w))];
    var whole, x, y := Setting(k, params[k]), Setting(k, v), Setting(l, w);
    var base, over := Preamble(isPrimary, params), map[k := Trim(v)];
    assert Settings(params, [k]) == [whole] by { assert [k][..0] == []; }
    SameText(base, k, v, y);
    PreambleOk(isPrimary, params);
    ReadRender(base + [x] + [y]);
    TrimKeepsDefaults();
    EffectSnoc(Trim, base + [x], y);
    EffectSnoc(Trim, base, x);
    EffectOfPreamble(Trim, isPrimary, params, over);
  }

  lemma SameText(items: seq<Item>, k: string, v: string, y: Item)
    ensures Render(items + [Setting(k, v + "\n" + Line(y))]) == Render(items + [Setting(k, v)] + [y])
  {
    hide Render;
    RenderSnoc(items, Setting(k, v + "\n" + Line(y)));
    RenderSnoc(items, Setting(k, v));
    RenderSnoc(items + [Setting(k, v)], y);
  }

  lemma EffectSnoc(norm: string -> string, items: seq<Item>, item: Item)
    ensures Effect(norm, items + [item]) == Effect(norm, items) + Assignment(Reads(norm, item))
  {
    assert (items + [item])[..|items|] == items;
  }
}
