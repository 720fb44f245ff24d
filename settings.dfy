/**
 * The settings manager of the plugin: three validators that map any input to
 * an accepted value, and a small key/value store over the WordPress options
 * table in which every option name carries the prefix `dlt_`.
 *
 * The WordPress options table is abstracted as a `map<string, string>` from
 * full (prefixed) option names to stored values.
 */
module Settings {
  import opened Options

  const Prefix := "dlt_"

  const DefaultPosition := "top-right"
  const DefaultColor := "#4a9eff"

  /** The defaults table, in declaration order (the order `set_defaults` and `get_all_options` visit it). */
  const Defaults: seq<(string, string)> := [
    ("position", DefaultPosition),
    ("show_text", "yes"),
    ("enable_auto_detect", "yes"),
    ("dark_link_color", DefaultColor),
    ("dark_button_bg_color", DefaultColor),
    ("dark_mode_logo", "")
  ]

  const Positions: set<string> := {"top-left", "top-right", "bottom-left", "bottom-right"}

  /** The option names that have a default. */
  function Names(table: seq<(string, string)>): set<string>
  {
    set i | 0 <= i < |table| :: table[i].0
  }

  // ---------------------------------------------------------------------
  // Validators
  // ---------------------------------------------------------------------

  /** A position is kept when it is one of the four corners, else it becomes `top-right`. */
  function ValidatePosition(value: string): (r: string)
    ensures r in Positions
    ensures r == value <==> value in Positions
    ensures value !in Positions ==> r == DefaultPosition
  {
    if value in Positions then value else DefaultPosition
  }

  /** `yes` and `no` are kept; every other value becomes `yes`. */
  function ValidateYesNo(value: string): (r: string)
    ensures r == "yes" || r == "no"
    ensures r == value <==> value == "yes" || value == "no"
    ensures value != "no" ==> r == "yes"
  {
    if value == "yes" || value == "no" then value else "yes"
  }

  predicate IsHexDigit(c: char)
  {
    '0' <= c <= '9' || 'a' <= c <= 'f' || 'A' <= c <= 'F'
  }

  /** Exactly six hexadecimal digits. */
  predicate IsSixHex(s: string)
  {
    |s| == 6 && forall i :: 0 <= i < |s| ==> IsHexDigit(s[i])
  }

  /**
   * Whether PCRE accepts `s` for the pattern `^[0-9A-Fa-f]{6}$`. Without the
   * D modifier, `$` also matches just before a final newline, so six digits
   * followed by one "\n" are accepted too.
   */
  predicate MatchesHexPattern(s: string)
  {
    IsSixHex(s) || (|s| == 7 && s[6] == '\n' && IsSixHex(s[..6]))
  }

  /** PHP's `ltrim($s, '#')`: drops every leading `#`. */
  function TrimLeadingHashes(s: string): (r: string)
    ensures |r| <= |s| && r == s[|s| - |r|..]
    ensures forall i :: 0 <= i < |s| - |r| ==> s[i] == '#'
    ensures r == [] || r[0] != '#'
  {
    if |s| > 0 && s[0] == '#' then TrimLeadingHashes(s[1..]) else s
  }

  /**
   * A colour is accepted as six hex digits with or without leading `#`
   * characters; the result then carries exactly one `#`. Anything else
   * becomes the default link colour.
   */
  function ValidateColor(value: string): (r: string)
    ensures |r| > 0 && r[0] == '#' && MatchesHexPattern(r[1..])
    ensures MatchesHexPattern(TrimLeadingHashes(value)) ==> r == "#" + TrimLeadingHashes(value)
    ensures !MatchesHexPattern(TrimLeadingHashes(value)) ==> r == DefaultColor
    ensures |r| == 7 || (|r| == 8 && r[7] == '\n')
  {
    var digits := TrimLeadingHashes(value);
    if MatchesHexPattern(digits) then "#" + digits else DefaultColor
  }

  lemma ValidatePositionIdempotent(value: string)
    ensures ValidatePosition(ValidatePosition(value)) == ValidatePosition(value)
  {
  }

  lemma ValidateYesNoIdempotent(value: string)
    ensures ValidateYesNo(ValidateYesNo(value)) == ValidateYesNo(value)
  {
  }

  /** A `#` followed by a string that begins with a hex digit loses exactly that `#`. */
  lemma TrimOneHash(s: string)
    requires |s| > 0 && IsHexDigit(s[0])
    ensures TrimLeadingHashes("#" + s) == s
  {
    assert ("#" + s)[1..] == s;
  }

  lemma ValidateColorIdempotent(value: string)
    ensures ValidateColor(ValidateColor(value)) == ValidateColor(value)
  {
    var r := ValidateColor(value);
    assert r[1..] != [] && IsHexDigit(r[1..][0]);
    assert r == "#" + r[1..];
    TrimOneHash(r[1..]);
  }

  lemma ValidateColorAddsHash()
    ensures ValidateColor("1a2b3c") == "#1a2b3c"
  {
    assert TrimLeadingHashes("1a2b3c") == "1a2b3c";
    assert IsSixHex("1a2b3c");
  }

  lemma ValidateColorStripsHashes()
    ensures ValidateColor("##1a2b3c") == "#1a2b3c"
  {
    ValidateColorAddsHash();
    TrimOneHash("1a2b3c");
    assert "#" + "1a2b3c" == "#1a2b3c";
    assert "#" + "#1a2b3c" == "##1a2b3c";
    assert TrimLeadingHashes("##1a2b3c") == TrimLeadingHashes("#1a2b3c");
  }

  lemma ValidateColorRejectsName()
    ensures ValidateColor("red") == DefaultColor
  {
    assert TrimLeadingHashes("red") == "red";
  }

  /** The pattern's `$` lets a value with one trailing newline through, newline included. */
  lemma ValidateColorKeepsTrailingNewline()
    ensures ValidateColor("1a2b3c\n") == "#1a2b3c\n"
    ensures |ValidateColor("1a2b3c\n")| == 8
  {
    assert TrimLeadingHashes("1a2b3c\n") == "1a2b3c\n";
    assert "1a2b3c\n"[..6] == "1a2b3c";
  }

  // ---------------------------------------------------------------------
  // Option names and the defaults table
  // ---------------------------------------------------------------------

  /** `get_option_name`: the full name under which an option is stored. */
  function OptionName(name: string): (r: string)
    ensures |r| == |Prefix| + |name|
    ensures r[..|Prefix|] == Prefix && r[|Prefix|..] == name
  {
    Prefix + name
  }

  lemma OptionNameInjective(a: string, b: string)
    ensures OptionName(a) == OptionName(b) <==> a == b
  {
    if OptionName(a) == OptionName(b) {
      assert a == OptionName(a)[|Prefix|..];
    }
  }

  /** `$defaults[$name]` when it is set: the first entry with that name. */
  function DefaultFor(table: seq<(string, string)>, name: string): (r: Option<string>)
    ensures r.Some? <==> name in Names(table)
    ensures r.Some? ==> exists i :: 0 <= i < |table| && table[i] == (name, r.value)
  {
    if |table| == 0 then None
    else if table[0].0 == name then Some(table[0].1)
    else
      assert Names(table) == {table[0].0} + Names(table[1..]) by {
        forall n | n in Names(table) ensures n in {table[0].0} + Names(table[1..]) {
          var i :| 0 <= i < |table| && table[i].0 == n;
          if i > 0 { assert table[1..][i - 1].0 == n; }
        }
        forall n | n in Names(table[1..]) ensures n in Names(table) {
          var i :| 0 <= i < |table[1..]| && table[1..][i].0 == n;
          assert table[i + 1].0 == n;
        }
      }
      var r := DefaultFor(table[1..], name);
      if r.Some? then
        var i :| 0 <= i < |table[1..]| && table[1..][i] == (name, r.value);
        assert table[i + 1] == (name, r.value);
        r
      else r
  }

  /**
   * What `get_option($name, $default)` returns for a store: the stored value
   * under the prefixed name when there is one; otherwise the explicit default
   * when one is passed, else the table default for a known name, else null.
   */
  function StoredOrDefault(options: map<string, string>, name: string, explicitDefault: Option<string>): (r: Option<string>)
    ensures OptionName(name) in options ==> r == Some(options[OptionName(name)])
    ensures OptionName(name) !in options && explicitDefault.Some? ==> r == explicitDefault
    ensures OptionName(name) !in options && explicitDefault.None? ==> r == DefaultFor(Defaults, name)
    ensures explicitDefault.None? && name in Names(Defaults) ==> r.Some?
  {
    var fallback := if explicitDefault.None? then DefaultFor(Defaults, name) else explicitDefault;
    var key := OptionName(name);
    if key in options then Some(options[key]) else fallback
  }

  /** `add_option`: stores the value only when the name is not yet present. */
  function AddOption(options: map<string, string>, key: string, value: string): map<string, string>
  {
    if key in options then options else options[key := value]
  }

  /** The store after `add_option` of every entry of `table`, in order, under its prefixed name. */
  function AddAll(options: map<string, string>, table: seq<(string, string)>): map<string, string>
    decreases |table|
  {
    if |table| == 0 then options
    else AddAll(AddOption(options, OptionName(table[0].0), table[0].1), table[1..])
  }

  lemma {:induction false} AddAllKeepsExisting(options: map<string, string>, table: seq<(string, string)>, key: string)
    requires key in options
    ensures key in AddAll(options, table) && AddAll(options, table)[key] == options[key]
    decreases |table|
  {
    if |table| > 0 {
      AddAllKeepsExisting(AddOption(options, OptionName(table[0].0), table[0].1), table[1..], key);
    }
  }

  lemma {:induction false} AddAllAddsEveryName(options: map<string, string>, table: seq<(string, string)>, i: nat)
    requires i < |table|
    ensures OptionName(table[i].0) in AddAll(options, table)
    decreases |table|
  {
    var next := AddOption(options, OptionName(table[0].0), table[0].1);
    if i == 0 {
      AddAllKeepsExisting(next, table[1..], OptionName(table[0].0));
    } else {
      assert table[1..][i - 1] == table[i];
      AddAllAddsEveryName(next, table[1..], i - 1);
    }
  }

  lemma {:induction false} AddAllAddsNothingElse(options: map<string, string>, table: seq<(string, string)>, key: string)
    requires key in AddAll(options, table) && key !in options
    ensures exists i :: 0 <= i < |table| && key == OptionName(table[i].0)
    decreases |table|
  {
    if |table| > 0 && key != OptionName(table[0].0) {
      AddAllAddsNothingElse(AddOption(options, OptionName(table[0].0), table[0].1), table[1..], key);
      var i :| 0 <= i < |table[1..]| && key == OptionName(table[1..][i].0);
      assert table[i + 1] == table[1..][i];
    }
  }

  /** A name that was absent gets the value of its first entry in the table, as `add_option` never overwrites. */
  lemma {:induction false} AddAllFirstWins(options: map<string, string>, table: seq<(string, string)>, name: string)
    requires OptionName(name) !in options && name in Names(table)
    ensures OptionName(name) in AddAll(options, table)
    ensures Some(AddAll(options, table)[OptionName(name)]) == DefaultFor(table, name)
    decreases |table|
  {
    var key := OptionName(name);
    var next := AddOption(options, OptionName(table[0].0), table[0].1);
    if table[0].0 == name {
      AddAllKeepsExisting(next, table[1..], key);
    } else {
      OptionNameInjective(table[0].0, name);
      var i :| 0 <= i < |table| && table[i].0 == name;
      assert table[1..][i - 1].0 == name;
      AddAllFirstWins(next, table[1..], name);
    }
  }

  /** The default of a name is the value of its first entry. */
  lemma {:induction false} DefaultForFirst(table: seq<(string, string)>, i: nat)
    requires i < |table|
    requires forall j :: 0 <= j < i ==> table[j].0 != table[i].0
    ensures DefaultFor(table, table[i].0) == Some(table[i].1)
  {
    if i > 0 {
      assert table[1..][i - 1] == table[i];
      forall j | 0 <= j < i - 1 ensures table[1..][j].0 != table[1..][i - 1].0 {
        assert table[1..][j] == table[j + 1];
      }
      DefaultForFirst(table[1..], i - 1);
    }
  }

  lemma DefaultsNames()
    ensures Names(Defaults) == {"position", "show_text", "enable_auto_detect", "dark_link_color", "dark_button_bg_color", "dark_mode_logo"}
  {
    assert Defaults[0].0 == "position";
    assert Defaults[1].0 == "show_text";
    assert Defaults[2].0 == "enable_auto_detect";
    assert Defaults[3].0 == "dark_link_color";
    assert Defaults[4].0 == "dark_button_bg_color";
    assert Defaults[5].0 == "dark_mode_logo";
  }

  // ---------------------------------------------------------------------
  // The option store
  // ---------------------------------------------------------------------

  /** `DLT_Settings_Manager` over the WordPress options table it reads and writes. */
  class SettingsManager {
    var options: map<string, string>

    constructor (options: map<string, string>)
      ensures this.options == options
    {
      this.options := options;
    }

    /** `get_option`: the stored value, else the explicit default, else the table default, else null. */
    method GetOption(name: string, explicitDefault: Option<string>) returns (r: Option<string>)
      ensures r == StoredOrDefault(options, name, explicitDefault)
      ensures explicitDefault.None? && name !in Names(Defaults) && OptionName(name) !in options ==> r == None
    {
      var fallback := explicitDefault;
      if fallback.None? {
        var known := DefaultFor(Defaults, name);
        if known.Some? {
          fallback := known;
        }
      }
      var key := OptionName(name);
      if key in options {
        r := Some(options[key]);
      } else {
        r := fallback;
      }
    }

    /**
     * `update_option`: stores `value` under the prefixed name. The result is
     * WordPress's: false when the same value was already stored.
     */
    method UpdateOption(name: string, value: string) returns (updated: bool)
      modifies this
      ensures options == old(options)[OptionName(name) := value]
      ensures updated <==> !(OptionName(name) in old(options) && old(options)[OptionName(name)] == value)
      ensures StoredOrDefault(options, name, None) == Some(value)
      ensures forall other, d :: other != name ==> StoredOrDefault(options, other, d) == StoredOrDefault(old(options), other, d)
    {
      var key := OptionName(name);
      updated := !(key in options && options[key] == value);
      options := options[key := value];
      forall other, d | other != name
        ensures StoredOrDefault(options, other, d) == StoredOrDefault(old(options), other, d)
      {
        OptionNameInjective(other, name);
      }
    }

    /** `delete_option`: removes the prefixed name; the result says whether it was present. */
    method DeleteOption(name: string) returns (deleted: bool)
      modifies this
      ensures options == old(options) - {OptionName(name)}
      ensures deleted <==> OptionName(name) in old(options)
      ensures StoredOrDefault(options, name, None) == DefaultFor(Defaults, name)
      ensures forall other, d :: other != name ==> StoredOrDefault(options, other, d) == StoredOrDefault(old(options), other, d)
    {
      var key := OptionName(name);
      deleted := key in options;
      options := options - {key};
      forall other, d | other != name
        ensures StoredOrDefault(options, other, d) == StoredOrDefault(old(options), other, d)
      {
        OptionNameInjective(other, name);
      }
    }

    /** `get_all_options`: every defaulted option by its short name, as `get_option` reads it. */
    method GetAllOptions() returns (all: map<string, string>)
      ensures all.Keys == Names(Defaults)
      ensures forall name :: name in all ==> Some(all[name]) == StoredOrDefault(options, name, None)
    {
      all := map[];
      var i := 0;
      while i < |Defaults|
        invariant 0 <= i <= |Defaults|
        invariant all.Keys == Names(Defaults[..i])
        invariant forall name :: name in all ==> Some(all[name]) == StoredOrDefault(options, name, None)
      {
        var name := Defaults[i].0;
        assert name in Names(Defaults);
        var value := GetOption(name, None);
        all := all[name := value.value];
        assert Names(Defaults[..i + 1]) == Names(Defaults[..i]) + {name} by {
          assert Defaults[..i + 1] == Defaults[..i] + [Defaults[i]];
          NamesAppend(Defaults[..i], Defaults[i]);
        }
        i := i + 1;
      }
      assert Defaults[..i] == Defaults;
    }

    /** `set_defaults`: `add_option` of every default, so values already stored are kept. */
    method SetDefaults()
      modifies this
      ensures options == AddAll(old(options), Defaults)
      ensures forall i :: 0 <= i < |Defaults| ==> OptionName(Defaults[i].0) in options
      ensures forall key :: key in old(options) ==> key in options && options[key] == old(options)[key]
      ensures forall key :: key in options && key !in old(options) ==> exists i :: 0 <= i < |Defaults| && key == OptionName(Defaults[i].0)
    {
      var i := 0;
      while i < |Defaults|
        invariant 0 <= i <= |Defaults|
        invariant AddAll(options, Defaults[i..]) == AddAll(old(options), Defaults)
      {
        assert Defaults[i..][0] == Defaults[i] && Defaults[i..][1..] == Defaults[i + 1..];
        var (key, value) := Defaults[i];
        options := AddOption(options, OptionName(key), value);
        i := i + 1;
      }
      forall i | 0 <= i < |Defaults| ensures OptionName(Defaults[i].0) in options {
        AddAllAddsEveryName(old(options), Defaults, i);
      }
      forall key | key in old(options) ensures key in options && options[key] == old(options)[key] {
        AddAllKeepsExisting(old(options), Defaults, key);
      }
      forall key | key in options && key !in old(options)
        ensures exists i :: 0 <= i < |Defaults| && key == OptionName(Defaults[i].0)
      {
        AddAllAddsNothingElse(old(options), Defaults, key);
      }
    }
  }

  lemma NamesAppend(table: seq<(string, string)>, entry: (string, string))
    ensures Names(table + [entry]) == Names(table) + {entry.0}
  {
    var t := table + [entry];
    forall n | n in Names(t) ensures n in Names(table) + {entry.0} {
      var i :| 0 <= i < |t| && t[i].0 == n;
      if i < |table| { assert table[i] == t[i]; }
    }
    forall n | n in Names(table) ensures n in Names(t) {
      var i :| 0 <= i < |table| && table[i].0 == n;
      assert t[i] == table[i];
    }
    assert t[|table|] == entry;
  }

  /** After `set_defaults`, `get_option` of a defaulted name reads what was stored before, else the default. */
  lemma SetDefaultsThenGet(options: map<string, string>, name: string)
    requires name in Names(Defaults)
    ensures StoredOrDefault(AddAll(options, Defaults), name, None) == StoredOrDefault(options, name, None)
  {
    if OptionName(name) in options {
      AddAllKeepsExisting(options, Defaults, OptionName(name));
    } else {
      AddAllFirstWins(options, Defaults, name);
    }
  }

  /** `update_option` then `get_option` gives the value back; other names read as before. */
  lemma UpdateThenGet(options: map<string, string>, name: string, value: string, other: string, d: Option<string>)
    ensures StoredOrDefault(options[OptionName(name) := value], name, d) == Some(value)
    ensures other != name ==> StoredOrDefault(options[OptionName(name) := value], other, d) == StoredOrDefault(options, other, d)
  {
    OptionNameInjective(other, name);
  }

  /** `delete_option` then `get_option` gives the table default (null for an unknown name). */
  lemma DeleteThenGet(options: map<string, string>, name: string, other: string, d: Option<string>)
    ensures StoredOrDefault(options - {OptionName(name)}, name, None) == DefaultFor(Defaults, name)
    ensures other != name ==> StoredOrDefault(options - {OptionName(name)}, other, d) == StoredOrDefault(options, other, d)
  {
    OptionNameInjective(other, name);
  }
}
