/** Loading the module's configuration (Gateway/Config/Loader.php): every
    field listed in the module's default configuration XML is read from the
    store's scope configuration under `parent/group/key`, hidden fields are
    skipped, encrypted fields are decrypted, and the list of alternative
    payment methods read from a second XML file is stored under
    `settings/checkoutcom_configuration/apm_list`. */
module ConfigLoader {
  import opened Base
  import opened Php

  const KEY_PAYMENT: string := "payment"
  const KEY_SETTINGS: string := "settings"
  const KEY_CONFIG: string := "checkoutcom_configuration"
  const APM_LIST: string := "apm_list"

  /** Where the list of fields never loaded is kept. */
  const HIDDEN_PATH: string := "settings/checkoutcom_configuration/fields_hidden"
  /** Where the list of fields stored encrypted is kept. */
  const ENCRYPTED_PATH: string := "settings/checkoutcom_configuration/fields_encrypted"

  /** The message a failed load is reported with, before the cause's own message. */
  const LOAD_FAILED: string := "The module configuration file can't be loaded - "

  /** The framework services the loader calls: the store-scope configuration
      read by path, the encryptor's `decrypt` and the translation `__()`. */
  datatype Platform = Platform(
    scopeConfig: string -> Value,
    decrypt: Value -> Value,
    translate: Value -> Value)

  /** What `loadXmlData` returns: the `default` element of config.xml and the
      `item` elements of apm.xml, each already converted to an array. */
  datatype XmlData = XmlData(config: Value, apm: Value)

  // ---------------------------------------------------------------------------
  // Hidden and encrypted fields

  /** `isHidden`: `in_array($field, explode(',', <fields_hidden>))`. A
      field is hidden exactly when it is one of the comma-separated items of
      the `fields_hidden` setting. */
  function Hidden(pf: Platform, field: string): (r: bool)
    ensures ',' !in field ==> (r <==> IsDelimitedItem(ToPhpString(pf.scopeConfig(HIDDEN_PATH)), ',', field))
  {
    var listed := ToPhpString(pf.scopeConfig(HIDDEN_PATH));
    if ',' in field then field in Explode(',', listed)
    else ExplodeMember(',', listed, field); field in Explode(',', listed)
  }

  /** `isEncrypted`: `in_array($field, explode(',', <fields_encrypted>))`. A
      field is encrypted exactly when it is one of the comma-separated items
      of the `fields_encrypted` setting. */
  function Encrypted(pf: Platform, field: string): (r: bool)
    ensures ',' !in field ==> (r <==> IsDelimitedItem(ToPhpString(pf.scopeConfig(ENCRYPTED_PATH)), ',', field))
  {
    var listed := ToPhpString(pf.scopeConfig(ENCRYPTED_PATH));
    if ',' in field then field in Explode(',', listed)
    else ExplodeMember(',', listed, field); field in Explode(',', listed)
  }

  /** The message of the exception a failed load throws: the fixed text
      followed by the cause's message, passed through the translation `__()`. */
  function LoadFailure(pf: Platform, cause: string): string
  {
    ToPhpString(pf.translate(Str(LOAD_FAILED + cause)))
  }

  /** The value a configuration field is stored with: read at
      `parent/group/key`, decrypted when the key is an encrypted field. */
  function Stored(pf: Platform, parent: string, group: string, key: string): Value
  {
    var v := pf.scopeConfig(parent + "/" + group + "/" + key);
    if Encrypted(pf, key) then pf.decrypt(v) else v
  }

  // ---------------------------------------------------------------------------
  // The configuration tree, as the three nested loops build it

  /** One visit of the innermost loop. */
  function StoreKey(pf: Platform, out: Value, parent: string, group: string, key: string): Value
  {
    if Hidden(pf, key) then out else PutPath(out, [parent, group, key], Stored(pf, parent, group, key))
  }

  /** The innermost loop after its first `n` keys. */
  function KeysDone(pf: Platform, out: Value, parent: string, group: string, ks: seq<Entry>, n: nat): Value
    requires n <= |ks|
  {
    if n == 0 then out else StoreKey(pf, KeysDone(pf, out, parent, group, ks, n - 1), parent, group, ks[n - 1].0)
  }

  /** The middle loop after its first `n` groups. */
  function GroupsDone(pf: Platform, out: Value, parent: string, gs: seq<Entry>, n: nat): Value
    requires n <= |gs|
  {
    if n == 0 then out
    else
      var ks := Entries(gs[n - 1].1);
      KeysDone(pf, GroupsDone(pf, out, parent, gs, n - 1), parent, gs[n - 1].0, ks, |ks|)
  }

  /** The outer loop after its first `n` parents. */
  function ParentsDone(pf: Platform, out: Value, ps: seq<Entry>, n: nat): Value
    requires n <= |ps|
  {
    if n == 0 then out
    else
      var gs := Entries(ps[n - 1].1);
      GroupsDone(pf, ParentsDone(pf, out, ps, n - 1), ps[n - 1].0, gs, |gs|)
  }

  /** The configuration fields, before the payment-method list is added. */
  function ConfigTree(pf: Platform, config: Value): Value
  {
    ParentsDone(pf, Arr([]), Entries(config), |Entries(config)|)
  }

  /** The array `loadConfig` returns. */
  function LoadedConfig(pf: Platform, xml: XmlData): Value
  {
    PutPath(ConfigTree(pf, xml.config), [KEY_SETTINGS, KEY_CONFIG, APM_LIST], ApmList(pf, xml.apm))
  }

  // ---------------------------------------------------------------------------
  // The payment-method list

  /** One row of the payment-method list: its id and its translated title. */
  function ApmRow(pf: Platform, row: Value): Value
  {
    Arr([("value", Index(row, "id")), ("label", pf.translate(Index(row, "title")))])
  }

  /** `$list[] = $x`: append under the next integer key, which for a list is its length. */
  function Push(list: Value, x: Value): Value
  {
    Arr(Entries(list) + [(Decimal(|Entries(list)|), x)])
  }

  /** The list after its first `n` rows. */
  function ApmRows(pf: Platform, rows: seq<Entry>, n: nat): (r: Value)
    requires n <= |rows|
    ensures r.Arr? && |r.entries| == n
    ensures forall i :: 0 <= i < n ==> r.entries[i] == (Decimal(i), ApmRow(pf, rows[i].1))
  {
    if n == 0 then Arr([]) else Push(ApmRows(pf, rows, n - 1), ApmRow(pf, rows[n - 1].1))
  }

  /** The list `loadApmList` returns: one row per XML item, in order, under
      the keys 0, 1, 2, ... */
  function ApmList(pf: Platform, apm: Value): Value
  {
    ApmRows(pf, Entries(apm), |Entries(apm)|)
  }

  // ---------------------------------------------------------------------------
  // What the loaded tree holds

  /** The key `k` is listed among the first `n` entries. */
  predicate ListedBefore(es: seq<Entry>, k: string, n: nat)
  {
    exists c :: 0 <= c < n && c < |es| && es[c].0 == k
  }

  /** The key `k` is a field of the XML element `v`. */
  predicate Lists(v: Value, k: string)
  {
    ListedBefore(Entries(v), k, |Entries(v)|)
  }

  /** Some group `g` among the first `n` groups lists the field `k`. */
  predicate GroupListedBefore(gs: seq<Entry>, g: string, k: string, n: nat)
  {
    exists b :: 0 <= b < n && b < |gs| && gs[b].0 == g && Lists(gs[b].1, k)
  }

  /** Some parent `p` among the first `n` parents has a group `g` listing the field `k`. */
  predicate ParentListedBefore(ps: seq<Entry>, p: string, g: string, k: string, n: nat)
  {
    exists a :: 0 <= a < n && a < |ps| && ps[a].0 == p && GroupListedBefore(Entries(ps[a].1), g, k, |Entries(ps[a].1)|)
  }

  /** The configuration XML lists the field `k` in group `g` of parent `p`. */
  predicate InXml(config: Value, p: string, g: string, k: string)
  {
    ParentListedBefore(Entries(config), p, g, k, |Entries(config)|)
  }


  lemma ListedBeforeStep(es: seq<Entry>, k: string, n: nat)
    requires 0 < n <= |es|
    ensures ListedBefore(es, k, n) <==> ListedBefore(es, k, n - 1) || es[n - 1].0 == k
  {
    if ListedBefore(es, k, n) && es[n - 1].0 != k {
      var c :| 0 <= c < n && c < |es| && es[c].0 == k;
      assert c < n - 1;
    }
  }

  /** One visit of the innermost loop stores the field at its own path only. */
  lemma StoreKeyGet(pf: Platform, prev: Value, parent: string, group: string, key: string, q: seq<string>)
    requires |q| == 3
    ensures GetPath(StoreKey(pf, prev, parent, group, key), q) ==
      if q[0] == parent && q[1] == group && q[2] == key && !Hidden(pf, q[2])
      then Some(Stored(pf, q[0], q[1], q[2])) else GetPath(prev, q)
  {
    assert q == [parent, group, key] <==> q[0] == parent && q[1] == group && q[2] == key by {
      assert q == [q[0], q[1], q[2]];
    }
    if !Hidden(pf, key) {
      if q == [parent, group, key] {
        PutPathGet(prev, q, Stored(pf, parent, group, key));
      } else {
        PutPathOther(prev, [parent, group, key], Stored(pf, parent, group, key), q);
      }
    }
  }

  /** The innermost loop stores, at a three-level path, the listed field
      when it is not hidden, and leaves every other path as it was. */
  lemma {:induction false} KeysDoneGet(pf: Platform, out: Value, parent: string, group: string, ks: seq<Entry>, n: nat, q: seq<string>)
    requires n <= |ks| && |q| == 3
    ensures GetPath(KeysDone(pf, out, parent, group, ks, n), q) ==
      if q[0] == parent && q[1] == group && !Hidden(pf, q[2]) && ListedBefore(ks, q[2], n)
      then Some(Stored(pf, q[0], q[1], q[2])) else GetPath(out, q)
  {
    if n > 0 {
      var prev, key := KeysDone(pf, out, parent, group, ks, n - 1), ks[n - 1].0;
      assert KeysDone(pf, out, parent, group, ks, n) == StoreKey(pf, prev, parent, group, key);
      KeysDoneGet(pf, out, parent, group, ks, n - 1, q);
      StoreKeyGet(pf, prev, parent, group, key, q);
      ListedBeforeStep(ks, q[2], n);
    }
  }

  /** The middle loop stores the listed, non-hidden fields of its groups. */
  lemma {:induction false} GroupsDoneGet(pf: Platform, out: Value, parent: string, gs: seq<Entry>, n: nat, q: seq<string>)
    requires n <= |gs| && |q| == 3
    ensures GetPath(GroupsDone(pf, out, parent, gs, n), q) ==
      if q[0] == parent && !Hidden(pf, q[2]) && GroupListedBefore(gs, q[1], q[2], n)
      then Some(Stored(pf, q[0], q[1], q[2])) else GetPath(out, q)
  {
    if n > 0 {
      var prev, ks := GroupsDone(pf, out, parent, gs, n - 1), Entries(gs[n - 1].1);
      assert GroupsDone(pf, out, parent, gs, n) == KeysDone(pf, prev, parent, gs[n - 1].0, ks, |ks|);
      GroupsDoneGet(pf, out, parent, gs, n - 1, q);
      KeysDoneGet(pf, prev, parent, gs[n - 1].0, ks, |ks|, q);
      GroupListedStep(gs, q[1], q[2], n);
    }
  }

  lemma GroupListedStep(gs: seq<Entry>, g: string, k: string, n: nat)
    requires 0 < n <= |gs|
    ensures GroupListedBefore(gs, g, k, n) <==>
      GroupListedBefore(gs, g, k, n - 1) || (gs[n - 1].0 == g && Lists(gs[n - 1].1, k))
  {
    if GroupListedBefore(gs, g, k, n) && !GroupListedBefore(gs, g, k, n - 1) {
      var b :| 0 <= b < n && b < |gs| && gs[b].0 == g && Lists(gs[b].1, k);
      assert b == n - 1;
    }
  }

  /** The outer loop stores the listed, non-hidden fields of every parent. */
  lemma {:induction false} ParentsDoneGet(pf: Platform, out: Value, ps: seq<Entry>, n: nat, q: seq<string>)
    requires n <= |ps| && |q| == 3
    ensures GetPath(ParentsDone(pf, out, ps, n), q) ==
      if !Hidden(pf, q[2]) && ParentListedBefore(ps, q[0], q[1], q[2], n)
      then Some(Stored(pf, q[0], q[1], q[2])) else GetPath(out, q)
  {
    if n > 0 {
      var prev, gs := ParentsDone(pf, out, ps, n - 1), Entries(ps[n - 1].1);
      assert ParentsDone(pf, out, ps, n) == GroupsDone(pf, prev, ps[n - 1].0, gs, |gs|);
      ParentsDoneGet(pf, out, ps, n - 1, q);
      GroupsDoneGet(pf, prev, ps[n - 1].0, gs, |gs|, q);
      ParentListedStep(ps, q[0], q[1], q[2], n);
    }
  }

  lemma ParentListedStep(ps: seq<Entry>, p: string, g: string, k: string, n: nat)
    requires 0 < n <= |ps|
    ensures ParentListedBefore(ps, p, g, k, n) <==>
      ParentListedBefore(ps, p, g, k, n - 1) ||
      (ps[n - 1].0 == p && GroupListedBefore(Entries(ps[n - 1].1), g, k, |Entries(ps[n - 1].1)|))
  {
    if ParentListedBefore(ps, p, g, k, n) && !ParentListedBefore(ps, p, g, k, n - 1) {
      var a :| 0 <= a < n && a < |ps| && ps[a].0 == p &&
        GroupListedBefore(Entries(ps[a].1), g, k, |Entries(ps[a].1)|);
      assert a == n - 1;
    }
  }

  /** What the configuration tree holds at a three-level path: the stored
      value of a field the XML lists there and that is not hidden, and
      nothing otherwise. */
  lemma ConfigTreeLookup(pf: Platform, config: Value, p: string, g: string, k: string)
    ensures GetPath(ConfigTree(pf, config), [p, g, k]) ==
      if InXml(config, p, g, k) && !Hidden(pf, k) then Some(Stored(pf, p, g, k)) else None
  {
    var ps := Entries(config);
    ParentsDoneGet(pf, Arr([]), ps, |ps|, [p, g, k]);
    assert GetPath(Arr([]), [p, g, k]) == None;
  }

  /** What `loadConfig` returns, at every three-level path: the payment-method
      list at `settings/checkoutcom_configuration/apm_list` (it is written
      last, so it replaces a field of that name), and elsewhere exactly the
      listed, non-hidden fields, each read at its own path and decrypted
      when it is an encrypted field. */
  lemma LoadedConfigLookup(pf: Platform, xml: XmlData, p: string, g: string, k: string)
    ensures GetPath(LoadedConfig(pf, xml), [p, g, k]) ==
      if [p, g, k] == [KEY_SETTINGS, KEY_CONFIG, APM_LIST] then Some(ApmList(pf, xml.apm))
      else if InXml(xml.config, p, g, k) && !Hidden(pf, k) then Some(Stored(pf, p, g, k))
      else None
  {
    var apm := [KEY_SETTINGS, KEY_CONFIG, APM_LIST];
    if [p, g, k] == apm {
      PutPathGet(ConfigTree(pf, xml.config), apm, ApmList(pf, xml.apm));
    } else {
      PutPathOther(ConfigTree(pf, xml.config), apm, ApmList(pf, xml.apm), [p, g, k]);
      ConfigTreeLookup(pf, xml.config, p, g, k);
    }
  }

  /** A hidden field is never loaded, whatever the XML lists; only the
      payment-method list's own slot, written last, is filled regardless. */
  lemma HiddenNeverLoaded(pf: Platform, xml: XmlData, p: string, g: string, k: string)
    requires Hidden(pf, k) && [p, g, k] != [KEY_SETTINGS, KEY_CONFIG, APM_LIST]
    ensures GetPath(LoadedConfig(pf, xml), [p, g, k]) == None
  {
    LoadedConfigLookup(pf, xml, p, g, k);
  }

  // ---------------------------------------------------------------------------
  // Reading one value directly

  /** The path `getValue` reads: under the payment method when one is given
      (any truthy id), under the module's settings otherwise. */
  function ValuePath(key: string, methodId: Value): string
  {
    if Truthy(methodId) then KEY_PAYMENT + "/" + ToPhpString(methodId) + "/" + key
    else KEY_SETTINGS + "/" + KEY_CONFIG + "/" + key
  }

  /** Split at '/', the path is the three levels of the loaded tree it
      corresponds to. */
  lemma ValuePathSegments(key: string, m: string)
    requires '/' !in key && '/' !in m
    ensures Explode('/', ValuePath(key, Str(m))) ==
      if m != "" && m != "0" then [KEY_PAYMENT, m, key] else [KEY_SETTINGS, KEY_CONFIG, key]
  {
    var a, b := if m != "" && m != "0" then KEY_PAYMENT else KEY_SETTINGS, if m != "" && m != "0" then m else KEY_CONFIG;
    assert '/' !in a && '/' !in b;
    ThreeSegments(a, b, key);
  }

  lemma ThreeSegments(a: string, b: string, c: string)
    requires '/' !in a && '/' !in b && '/' !in c
    ensures Explode('/', a + "/" + b + "/" + c) == [a, b, c]
  {
    var s := a + "/" + b + "/" + c;
    var rest := b + "/" + c;
    assert s == a + ['/'] + rest;
    ExplodeCons('/', a, rest);
    assert rest == b + ['/'] + c;
    ExplodeCons('/', b, c);
    ExplodeNoSep('/', c);
    IndexOfFound(c, '/');
    ExplodeWhole('/', c);
  }

  // ---------------------------------------------------------------------------
  // The loader

  class Loader {
    const platform: Platform
    /** What `loadXmlData` returned, once loaded. */
    var xmlData: XmlData
    /** The loaded configuration tree. */
    var data: Value

    /** The tree was loaded from the XML the loader holds. */
    predicate Valid()
      reads this
    {
      data == LoadedConfig(platform, xmlData)
    }

    /** The services wired; nothing loaded yet. */
    constructor Wire(platform: Platform)
      ensures this.platform == platform
      ensures xmlData == XmlData(Null, Null) && data == Arr([])
    {
      this.platform := platform;
      xmlData := XmlData(Null, Null);
      data := Arr([]);
    }

    /** The constructor: wires the services and loads the configuration;
        reading the XML files can fail, and the loader is then not built and
        the failure is reported with the translated `LOAD_FAILED` message. */
    static method Create(platform: Platform, xml: Result<XmlData, string>) returns (r: Result<Loader, string>)
      ensures r.Failure? <==> xml.Failure?
      ensures xml.Failure? ==> r.error == LoadFailure(platform, xml.error)
      ensures r.Success? ==>
        (fresh(r.value) && r.value.platform == platform && r.value.Valid() &&
         r.value.xmlData == xml.value && r.value.data == LoadedConfig(platform, xml.value))
    {
      var loader := new Loader.Wire(platform);
      var loaded := loader.LoadConfig(xml);
      if loaded.Failure? {
        return Failure(loaded.error);
      }
      loader.data := loaded.value;
      return Success(loader);
    }

    /** `loadConfig`: the XML comes from the module's files (`xml` stands for
        `loadXmlData`, which can throw); every listed field that is not
        hidden is read and stored under its three keys, then the
        payment-method list is added. */
    method LoadConfig(xml: Result<XmlData, string>) returns (r: Result<Value, string>)
      modifies this`xmlData
      ensures xml.Failure? ==> r == Failure(LoadFailure(platform, xml.error)) && xmlData == old(xmlData)
      ensures xml.Success? ==> xmlData == xml.value && r == Success(LoadedConfig(platform, xml.value))
    {
      if xml.Failure? {
        return Failure(LoadFailure(platform, xml.error));
      }
      xmlData := xml.value;
      var output := BuildTree(xmlData.config);
      var apm := LoadApmList();
      output := PutPath(output, [KEY_SETTINGS, KEY_CONFIG, APM_LIST], apm);
      return Success(output);
    }

    /** The outer two of `loadConfig`'s loops: for every parent and group
        of the configuration XML, its fields are stored. */
    method BuildTree(config: Value) returns (output: Value)
      ensures output == ConfigTree(platform, config)
    {
      output := Arr([]);
      var ps := Entries(config);
      var i := 0;
      while i < |ps|
        invariant 0 <= i <= |ps|
        invariant output == ParentsDone(platform, Arr([]), ps, i)
      {
        var parent := ps[i].0;
        var gs := Entries(ps[i].1);
        ghost var parentStart := output;
        var j := 0;
        while j < |gs|
          invariant 0 <= j <= |gs|
          invariant output == GroupsDone(platform, parentStart, parent, gs, j)
        {
          output := StoreFields(output, parent, gs[j].0, Entries(gs[j].1));
          j := j + 1;
        }
        i := i + 1;
      }
    }

    /** The innermost of `loadConfig`'s loops: each field of one group that
        is not hidden is read at `parent/group/key`, decrypted when it is an
        encrypted field, and stored under its three keys. */
    method StoreFields(start: Value, parent: string, group: string, ks: seq<Entry>) returns (output: Value)
      ensures output == KeysDone(platform, start, parent, group, ks, |ks|)
    {
      output := start;
      var k := 0;
      while k < |ks|
        invariant 0 <= k <= |ks|
        invariant output == KeysDone(platform, start, parent, group, ks, k)
      {
        var key := ks[k].0;
        if !Hidden(platform, key) {
          var path := parent + "/" + group + "/" + key;
          var value := platform.scopeConfig(path);
          if Encrypted(platform, key) {
            value := platform.decrypt(value);
          }
          output := PutPath(output, [parent, group, key], value);
        }
        k := k + 1;
      }
    }

    /** `loadApmList`: one row per XML item, in the items' order, under the
        keys 0, 1, 2, ...; each row is the item's id and its translated title. */
    method LoadApmList() returns (output: Value)
      ensures output.Arr? && |output.entries| == |Entries(xmlData.apm)|
      ensures forall i :: 0 <= i < |output.entries| ==>
        output.entries[i] == (Decimal(i), ApmRow(platform, Entries(xmlData.apm)[i].1))
      ensures output == ApmList(platform, xmlData.apm)
    {
      output := Arr([]);
      var rows := Entries(xmlData.apm);
      var i := 0;
      while i < |rows|
        invariant 0 <= i <= |rows|
        invariant output == ApmRows(platform, rows, i)
      {
        var row := rows[i].1;
        output := Push(output, Arr([("value", Index(row, "id")), ("label", platform.translate(Index(row, "title")))]));
        i := i + 1;
      }
    }

    /** `getValue`: the value at `ValuePath`, decrypted when the key is an
        encrypted field. It is the value the loader stores for the key under
        the method's group, or under the module's settings without a method. */
    function GetValue(key: string, methodId: Value): (r: Value)
      ensures Truthy(methodId) ==> r == Stored(platform, KEY_PAYMENT, ToPhpString(methodId), key)
      ensures !Truthy(methodId) ==> r == Stored(platform, KEY_SETTINGS, KEY_CONFIG, key)
    {
      var v := platform.scopeConfig(ValuePath(key, methodId));
      if Encrypted(platform, key) then platform.decrypt(v) else v
    }
  }

  /** Reading a payment method's field directly gives the value the loader
      stored for it, when the XML lists it and it is not hidden. */
  lemma GetValueMatchesMethodField(l: Loader, m: string, key: string)
    requires l.Valid()
    requires m != "" && m != "0"
    requires InXml(l.xmlData.config, KEY_PAYMENT, m, key) && !Hidden(l.platform, key)
    ensures GetPath(l.data, [KEY_PAYMENT, m, key]) == Some(l.GetValue(key, Str(m)))
  {
    LoadedConfigLookup(l.platform, l.xmlData, KEY_PAYMENT, m, key);
  }

  /** Reading a module setting directly (no method id) gives the value the
      loader stored for it, when the XML lists it and it is not hidden; the
      payment-method list's own slot is the exception. */
  lemma GetValueMatchesSetting(l: Loader, methodId: Value, key: string)
    requires l.Valid()
    requires !Truthy(methodId) && key != APM_LIST
    requires InXml(l.xmlData.config, KEY_SETTINGS, KEY_CONFIG, key) && !Hidden(l.platform, key)
    ensures GetPath(l.data, [KEY_SETTINGS, KEY_CONFIG, key]) == Some(l.GetValue(key, methodId))
  {
    LoadedConfigLookup(l.platform, l.xmlData, KEY_SETTINGS, KEY_CONFIG, key);
  }
}
