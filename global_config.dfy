/** `GlobalConfig` of src/wpe/global_config.py: the user-wide settings kept
    as a flat table, started from the defaults, merged with the settings
    file and changed one key at a time with the text given on the command
    line converted to the type of the key's default. */
module Settings {
  import opened Wrappers
  import opened Errors
  import opened Strings
  import opened OrderedDict
  import opened Schema

  /** `ConfigKey.USE_WSL_FOR_LINUX` */
  const UseWslForLinux := "use-wsl-for-linux"

  /** `_DEFAULT_CONFIG`: a class constant, so no instance ever changes it. */
  function DefaultConfig(): (r: Table<Value>)
    ensures r.keys == [UseWslForLinux] && r.items[UseWslForLinux] == BoolValue(false)
  {
    Put(Empty(), UseWslForLinux, BoolValue(false))
  }

  // ---------------------------------------------------------------------
  // load: `self._configDict[key] = val` for every entry of the file

  /** The table after the first `n` entries of `loaded` are written into `base`. */
  function MergedUpTo(base: Table<Value>, loaded: Table<Value>, n: nat): Table<Value>
    requires n <= |loaded.keys|
  {
    if n == 0 then base
    else Put(MergedUpTo(base, loaded, n - 1), loaded.keys[n - 1], loaded.items[loaded.keys[n - 1]])
  }

  /** The table after `load`; `None` stands for a missing settings file. */
  function Merged(base: Table<Value>, loaded: Option<Table<Value>>): Table<Value>
  {
    if loaded.None? then base else MergedUpTo(base, loaded.value, |loaded.value.keys|)
  }

  /** After `n` writes a key is present when it was before or was written, and
      holds the written value if it was written, its old value otherwise. */
  lemma {:induction false} MergedUpToItems(base: Table<Value>, loaded: Table<Value>, n: nat, k: string)
    requires n <= |loaded.keys|
    ensures k in MergedUpTo(base, loaded, n).items <==> k in base.items || k in loaded.keys[..n]
    ensures k in MergedUpTo(base, loaded, n).items ==>
      MergedUpTo(base, loaded, n).items[k] == if k in loaded.keys[..n] then loaded.items[k] else base.items[k]
  {
    if n > 0 {
      MergedUpToItems(base, loaded, n - 1, k);
      var key := loaded.keys[n - 1];
      assert loaded.keys[..n] == loaded.keys[..n - 1] + [key];
      assert k in loaded.keys[..n] <==> k in loaded.keys[..n - 1] || k == key;
    }
  }

  /** The keys already present keep their places. */
  lemma {:induction false} MergedUpToKeys(base: Table<Value>, loaded: Table<Value>, n: nat)
    requires n <= |loaded.keys|
    ensures |base.keys| <= |MergedUpTo(base, loaded, n).keys|
    ensures MergedUpTo(base, loaded, n).keys[..|base.keys|] == base.keys
  {
    if n > 0 {
      MergedUpToKeys(base, loaded, n - 1);
      var prev := MergedUpTo(base, loaded, n - 1).keys;
      var next := MergedUpTo(base, loaded, n).keys;
      assert |prev| <= |next| && next[..|prev|] == prev;
      assert next[..|base.keys|] == next[..|prev|][..|base.keys|];
    }
  }

  /** `load` overwrites exactly the keys in the file and keeps every other
      entry, and the keys already present keep their order. */
  lemma MergedSpec(base: Table<Value>, loaded: Table<Value>, k: string)
    ensures k in Merged(base, Some(loaded)).items <==> k in base.items || k in loaded.items
    ensures k in loaded.items ==> Merged(base, Some(loaded)).items[k] == loaded.items[k]
    ensures k !in loaded.items && k in base.items ==> Merged(base, Some(loaded)).items[k] == base.items[k]
    ensures |base.keys| <= |Merged(base, Some(loaded)).keys|
    ensures Merged(base, Some(loaded)).keys[..|base.keys|] == base.keys
  {
    MergedUpToItems(base, loaded, |loaded.keys|, k);
    MergedUpToKeys(base, loaded, |loaded.keys|);
    assert loaded.keys[..|loaded.keys|] == loaded.keys;
  }

  // ---------------------------------------------------------------------
  // set: _convert_value_type

  /** `int(text)` for an optional sign followed by decimal digits. */
  function ParseInt(text: string): (r: Option<int>)
  {
    if text != [] && (text[0] == '-' || text[0] == '+') then
      var digits := text[1..];
      if digits != [] && IsDigits(digits) then
        var v: int := DecimalValue(digits);
        Some(if text[0] == '-' then -v else v)
      else None
    else if text != [] && IsDigits(text) then Some(DecimalValue(text))
    else None
  }

  /** `int(str(i)) == i` */
  lemma ParseIntRoundTrip(i: int)
    ensures ParseInt(IntToString(i)) == Some(i)
  {
    if i < 0 {
      ParseNegative(-i);
    } else {
      ParseNatural(i);
    }
  }

  lemma ParseNegative(n: nat)
    requires n > 0
    ensures ParseInt("-" + NatToString(n)) == Some(-(n as int))
  {
    var text := "-" + NatToString(n);
    NatToStringRoundTrip(n);
    assert text[1..] == NatToString(n);
  }

  lemma ParseNatural(n: nat)
    ensures ParseInt(NatToString(n)) == Some(n)
  {
    var text := NatToString(n);
    NatToStringRoundTrip(n);
    assert '0' <= text[0] <= '9';
  }

  /** Text without any digit is not an integer. */
  lemma ParseIntNeedsDigits(text: string)
    requires forall j :: 0 <= j < |text| ==> !('0' <= text[j] <= '9')
    ensures ParseInt(text) == None
  {
    if text != [] && (text[0] == '-' || text[0] == '+') && text[1..] != [] {
      assert text[1..][0] == text[1];
    }
  }

  /** `_convert_value_type(text)` for `key`, typed by the key's default:
      a bool default takes `text.lower() == 'true'`, an int default `int(text)`,
      a float default `float(text)` (given by `floatRepr`, `None` for text that
      is no float), any other default the text itself. A key with no default
      is the KeyError of `_DEFAULT_CONFIG[key]`. */
  function Convert(key: string, text: string, floatRepr: string -> Option<string>): (r: Result<Value, Error>)
    ensures key !in DefaultConfig().items ==> r == Err(MissingKey(key))
    ensures key in DefaultConfig().items && DefaultConfig().items[key].BoolValue? ==>
      r == Ok(BoolValue(Lower(text) == "true"))
    ensures key in DefaultConfig().items && DefaultConfig().items[key].IntValue? ==>
      (r.Ok? <==> ParseInt(text).Some?) && (r.Ok? ==> r.value == IntValue(ParseInt(text).value))
  {
    if key !in DefaultConfig().items then Err(MissingKey(key))
    else
      match DefaultConfig().items[key]
      case BoolValue(_) => Ok(BoolValue(Lower(text) == "true"))
      case IntValue(_) =>
        (match ParseInt(text)
         case Some(i) => Ok(IntValue(i))
         case None => Err(InvalidLiteral(text)))
      case FloatValue(_) =>
        (match floatRepr(text)
         case Some(f) => Ok(FloatValue(f))
         case None => Err(InvalidLiteral(text)))
      case _ => Ok(StrValue(text))
  }

  /** Setting `use-wsl-for-linux` stores true exactly for "true" in any case. */
  lemma ConvertUseWsl(text: string, floatRepr: string -> Option<string>)
    ensures Convert(UseWslForLinux, text, floatRepr) == Ok(BoolValue(Lower(text) == "true"))
    ensures Convert(UseWslForLinux, "TRUE", floatRepr) == Ok(BoolValue(true))
    ensures Convert(UseWslForLinux, "yes", floatRepr) == Ok(BoolValue(false))
  {
    assert Lower("TRUE") == "true";
    assert Lower("yes") != "true" by { assert Lower("yes")[0] == 'y'; }
  }

  // ---------------------------------------------------------------------

  class GlobalConfig {
    /** `_configDict` */
    var configDict: Table<Value>

    /** `__init__`: a copy of the defaults, then `load()`. `loaded` is the
        parsed settings file, `None` when the file does not exist. */
    constructor (loaded: Option<Table<Value>>)
      ensures configDict == Merged(DefaultConfig(), loaded)
    {
      configDict := DefaultConfig();
      new;
      Load(loaded);
    }

    /** `load()`: every entry of the file is written into the table, in the
        file's order. */
    method Load(loaded: Option<Table<Value>>)
      modifies this
      ensures configDict == Merged(old(configDict), loaded)
    {
      if loaded.None? {
        return;
      }
      var src := loaded.value;
      for i := 0 to |src.keys|
        invariant configDict == MergedUpTo(old(configDict), src, i)
      {
        var key := src.keys[i];
        configDict := Put(configDict, key, src.items[key]);
      }
    }

    /** `get(key)`: the stored value, or the KeyError for an unknown key. */
    method Get(key: string) returns (r: Result<Value, Error>)
      ensures r.Ok? <==> key in configDict.items
      ensures r.Ok? ==> r.value == configDict.items[key]
      ensures r.Err? ==> r.error == InvalidConfigKey(key)
    {
      if key !in configDict.items {
        return Err(InvalidConfigKey(key));
      }
      return Ok(configDict.items[key]);
    }

    /** `set(key, value)` before `save()`: an unknown key is refused and the
        table is left as it was; otherwise the converted value replaces the
        key's value and nothing else changes. A failed conversion leaves the
        table as it was. */
    method Set(key: string, text: string, floatRepr: string -> Option<string>) returns (r: Result<(), Error>)
      modifies this
      ensures key !in old(configDict.items) ==> r == Err(InvalidConfigKey(key)) && configDict == old(configDict)
      ensures key in old(configDict.items) ==>
        var c := Convert(key, text, floatRepr);
        && (r.Ok? <==> c.Ok?)
        && (c.Err? ==> r == Err(c.error) && configDict == old(configDict))
        && (c.Ok? ==> configDict.keys == old(configDict.keys)
                      && configDict.items == old(configDict.items)[key := c.value])
    {
      if key !in configDict.items {
        return Err(InvalidConfigKey(key));
      }
      var c := Convert(key, text, floatRepr);
      if c.Err? {
        return Err(c.error);
      }
      configDict := Put(configDict, key, c.value);
      return Ok(());
    }
  }
}
