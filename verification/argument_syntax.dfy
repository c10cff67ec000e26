/**
 * The textual syntax of the Error Prone flags that configure NullAway, with the
 * parsers that read the flags back. The parsers are not part of the plugin: they
 * are the independent definitions the generated text is checked against.
 */
module ArgumentSyntax {
  import opened Wrappers

  /** The flag that enables the NullAway check, without a severity. */
  const CheckFlag: string := "-Xep:NullAway"

  /** Every option flag starts with this text, followed by `Name=value`. */
  const OptionFlagPrefix: string := "-XepOpt:NullAway:"

  /** `String.join(",", values)`: the values separated by single commas. */
  function Join(values: seq<string>): (r: string)
    ensures |values| == 1 ==> r == values[0]
  {
    if values == [] then ""
    else if |values| == 1 then values[0]
    else values[0] + "," + Join(values[1..])
  }

  /** Cuts `s` at every comma, keeping empty pieces; the inverse of `Join`. */
  function Split(s: string): (r: seq<string>)
    ensures |r| >= 1
  {
    if s == [] then [""]
    else if s[0] == ',' then [""] + Split(s[1..])
    else
      var rest := Split(s[1..]);
      [[s[0]] + rest[0]] + rest[1..]
  }

  /** The text of option flag `name` carrying `value`. */
  function OptionText(name: string, value: string): string
  {
    OptionFlagPrefix + name + "=" + value
  }

  /** The index of the first `c` in `s`, if there is one. */
  function FirstIndexOf(s: string, c: char): (r: Option<nat>)
    ensures r.Some? ==> r.value < |s| && s[r.value] == c && c !in s[..r.value]
    ensures r.None? ==> c !in s
  {
    if s == [] then None
    else if s[0] == c then Some(0)
    else match FirstIndexOf(s[1..], c)
      case None => None
      case Some(i) =>
        assert s[1..][..i] == s[1..i + 1];
        Some(i + 1)
  }

  /**
   * Reads an option flag back into its name and its value: the name runs from
   * the prefix to the first `=`, the value is everything after it.
   */
  function ParseOption(arg: string): Option<(string, string)>
  {
    if |arg| < |OptionFlagPrefix| || arg[..|OptionFlagPrefix|] != OptionFlagPrefix then None
    else
      var rest := arg[|OptionFlagPrefix|..];
      match FirstIndexOf(rest, '=')
      case None => None
      case Some(i) => Some((rest[..i], rest[i + 1..]))
  }

  /**
   * Reads the check-enable flag back: `Some(None)` for the bare flag (the
   * default severity), `Some(Some(s))` for the flag suffixed with `:s`, and
   * `None` for any other text.
   */
  function ParseSeverity(arg: string): Option<Option<string>>
  {
    if arg == CheckFlag then Some(None)
    else if |arg| > |CheckFlag| && arg[..|CheckFlag| + 1] == CheckFlag + ":" then Some(Some(arg[|CheckFlag| + 1..]))
    else None
  }

  lemma {:induction false} SplitWithoutComma(v: string)
    requires ',' !in v
    ensures Split(v) == [v]
  {
    if v != [] {
      SplitWithoutComma(v[1..]);
      assert [v[0]] + v[1..] == v;
    }
  }

  lemma {:induction false} SplitAtComma(v: string, tail: string)
    requires ',' !in v
    ensures Split(v + "," + tail) == [v] + Split(tail)
  {
    if v == [] {
      assert v + "," + tail == [','] + tail;
      assert (v + "," + tail)[1..] == tail;
    } else {
      assert (v + "," + tail)[1..] == v[1..] + "," + tail;
      SplitAtComma(v[1..], tail);
      assert [v[0]] + v[1..] == v;
    }
  }

  /**
   * Joining with commas loses nothing when no value contains a comma: cutting
   * the joined text at its commas gives back exactly the values, in order.
   */
  lemma {:induction false} SplitJoin(values: seq<string>)
    requires values != []
    requires forall i :: 0 <= i < |values| ==> ',' !in values[i]
    ensures Split(Join(values)) == values
  {
    if |values| == 1 {
      SplitWithoutComma(values[0]);
    } else {
      SplitJoin(values[1..]);
      SplitAtComma(values[0], Join(values[1..]));
      assert [values[0]] + values[1..] == values;
    }
  }

  /** An option flag reads back as the name and value it was built from. */
  lemma OptionTextParses(name: string, value: string)
    requires '=' !in name
    ensures ParseOption(OptionText(name, value)) == Some((name, value))
  {
    var arg := OptionText(name, value);
    assert arg[..|OptionFlagPrefix|] == OptionFlagPrefix;
    var rest := arg[|OptionFlagPrefix|..];
    assert rest == name + ("=" + value);
    FirstIndexAfter(name, '=', "=" + value);
    assert FirstIndexOf(rest, '=') == Some(|name|);
    assert rest[..|name|] == name;
    assert rest[|name| + 1..] == value;
  }

  lemma {:induction false} FirstIndexAfter(prefix: string, c: char, s: string)
    requires c !in prefix && s != [] && s[0] == c
    ensures FirstIndexOf(prefix + s, c) == Some(|prefix|)
  {
    if prefix != [] {
      assert (prefix + s)[1..] == prefix[1..] + s;
      FirstIndexAfter(prefix[1..], c, s);
    }
  }

  /** Option flags are never mistaken for the check-enable flag. */
  lemma OptionTextIsNoSeverity(name: string, value: string)
    ensures ParseSeverity(OptionText(name, value)) == None
  {
    var arg := OptionText(name, value);
    assert arg[4] == 'O';
    assert (CheckFlag + ":")[4] == ':';
  }
}
