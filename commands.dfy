/** The command lines the device actions send through `shell:` and `exec:`
    (autogui_core/src/controller/adb.rs, `impl Controller for ADB`), and the
    fields they split into at single spaces. */
module Commands {
  import opened Errors
  import opened Decimal

  /** `format!("input tap {} {}", x, y)`: after the program and its
      subcommand come only digits and spaces. */
  function Tap(x: u32, y: u32): (r: string)
    ensures |r| > 10 && r[..10] == "input tap "
    ensures forall i :: 10 <= i < |r| ==> IsDigit(r[i]) || r[i] == ' '
  {
    "input tap " + Show(x as nat) + " " + Show(y as nat)
  }

  /** `format!("input swipe {} {} {} {}", x1, y1, x2, y2)`: after the
      program and its subcommand come only digits and spaces. */
  function Swipe(x1: u32, y1: u32, x2: u32, y2: u32): (r: string)
    ensures |r| > 12 && r[..12] == "input swipe "
    ensures forall i :: 12 <= i < |r| ==> IsDigit(r[i]) || r[i] == ' '
  {
    "input swipe " + Show(x1 as nat) + " " + Show(y1 as nat) + " " + Show(x2 as nat) + " " + Show(y2 as nat)
  }

  /** `format!("input keyevent {}", keycode)`: after the program and its
      subcommand come only digits. */
  function KeyEvent(keycode: u32): (r: string)
    ensures |r| > 15 && r[..15] == "input keyevent "
    ensures forall i :: 15 <= i < |r| ==> IsDigit(r[i])
  {
    "input keyevent " + Show(keycode as nat)
  }

  /** `format!("input text {}", text)`: the text is pasted in as it is, with
      no quoting or escaping. */
  function Text(text: string): (r: string)
    ensures |r| == 11 + |text| && r[..11] == "input text " && r[11..] == text
  {
    "input text " + text
  }

  /** The command the screen capture runs through `exec:`. */
  const Screencap: string := "screencap -p"

  /** The fields of a command line, cut at each single space: two adjacent
      spaces leave an empty field between them, and a leading or trailing
      space an empty field at that end. Tabs, newlines and quotes are
      ordinary characters here. */
  function Words(s: string): (r: seq<string>)
    ensures |r| >= 1
  {
    if s == [] then [""]
    else if s[0] == ' ' then [""] + Words(s[1..])
    else
      var rest := Words(s[1..]);
      [[s[0]] + rest[0]] + rest[1..]
  }

  /** A text without spaces is one field, the text itself. */
  lemma {:induction false} OneWord(s: string)
    requires ' ' !in s
    ensures Words(s) == [s]
  {
    if s != [] {
      OneWord(s[1..]);
      assert [s[0]] + s[1..] == s;
    }
  }

  /** Joining two texts with one space joins their field lists. */
  lemma {:induction false} WordsJoin(a: string, b: string)
    ensures Words(a + [' '] + b) == Words(a) + Words(b)
  {
    if a == [] {
      assert a + [' '] + b == [' '] + b;
      assert ([' '] + b)[1..] == b;
    } else {
      var s := a + [' '] + b;
      assert s[0] == a[0];
      assert s[1..] == a[1..] + [' '] + b;
      WordsJoin(a[1..], b);
    }
  }

  lemma NumeralHasNoSpace(n: nat)
    ensures ' ' !in Show(n)
  {
    var s := Show(n);
    forall i | 0 <= i < |s|
      ensures s[i] != ' '
    {
      assert IsDigit(s[i]);
    }
  }

  /** A field without spaces, one space, then the rest. */
  lemma WordsCons(w: string, rest: string)
    requires ' ' !in w
    ensures Words(w + " " + rest) == [w] + Words(rest)
  {
    assert w + " " + rest == w + [' '] + rest;
    WordsJoin(w, rest);
    OneWord(w);
  }

  /** A numeral is a single field. */
  lemma WordsOfNumeral(n: nat)
    ensures Words(Show(n)) == [Show(n)]
  {
    NumeralHasNoSpace(n);
    OneWord(Show(n));
  }

  /** A program name and a subcommand, each one field, in front of the rest. */
  lemma TwoWordsBefore(program: string, sub: string, rest: string)
    requires ' ' !in program && ' ' !in sub
    ensures Words(program + " " + (sub + " " + rest)) == [program, sub] + Words(rest)
  {
    WordsCons(sub, rest);
    WordsCons(program, sub + " " + rest);
  }

  /** Four space-free fields joined by single spaces are read back as
      those four fields. */
  lemma FourWords(a: string, b: string, c: string, d: string)
    requires ' ' !in a && ' ' !in b && ' ' !in c && ' ' !in d
    ensures Words(a + " " + (b + " " + (c + " " + d))) == [a, b, c, d]
  {
    WordsCons(c, d);
    OneWord(d);
    TwoWordsBefore(a, b, c + " " + d);
  }

  /** The tap command line with its spaces grouped from the right. */
  lemma TapText(x: u32, y: u32)
    ensures Tap(x, y) == "input" + " " + ("tap" + " " + (Show(x as nat) + " " + Show(y as nat)))
  {
  }

  /** The tap command is exactly four fields, and the two numerals read
      back as the coordinates. */
  lemma TapWords(x: u32, y: u32)
    ensures Words(Tap(x, y)) == ["input", "tap", Show(x as nat), Show(y as nat)]
    ensures Value(Words(Tap(x, y))[2]) == x as nat && Value(Words(Tap(x, y))[3]) == y as nat
  {
    var xy := Show(x as nat) + " " + Show(y as nat);
    TapText(x, y);
    NumeralHasNoSpace(x as nat);
    NumeralHasNoSpace(y as nat);
    WordsCons(Show(x as nat), Show(y as nat));
    OneWord(Show(y as nat));
    TwoWordsBefore("input", "tap", xy);
    ValueShow(x as nat);
    ValueShow(y as nat);
  }

  /** The swipe command line with its spaces grouped from the right. */
  lemma SwipeText(x1: u32, y1: u32, x2: u32, y2: u32)
    ensures Swipe(x1, y1, x2, y2) == "input" + " " + ("swipe" + " "
      + (Show(x1 as nat) + " " + (Show(y1 as nat) + " " + (Show(x2 as nat) + " " + Show(y2 as nat)))))
  {
  }

  /** The swipe command is exactly six fields, whose numerals read back as
      the two points in order. */
  lemma SwipeWords(x1: u32, y1: u32, x2: u32, y2: u32)
    ensures Words(Swipe(x1, y1, x2, y2))
         == ["input", "swipe", Show(x1 as nat), Show(y1 as nat), Show(x2 as nat), Show(y2 as nat)]
    ensures var w := Words(Swipe(x1, y1, x2, y2));
            Value(w[2]) == x1 as nat && Value(w[3]) == y1 as nat
            && Value(w[4]) == x2 as nat && Value(w[5]) == y2 as nat
  {
    var t1 := Show(x1 as nat) + " " + (Show(y1 as nat) + " " + (Show(x2 as nat) + " " + Show(y2 as nat)));
    SwipeText(x1, y1, x2, y2);
    NumeralHasNoSpace(x1 as nat);
    NumeralHasNoSpace(y1 as nat);
    NumeralHasNoSpace(x2 as nat);
    NumeralHasNoSpace(y2 as nat);
    FourWords(Show(x1 as nat), Show(y1 as nat), Show(x2 as nat), Show(y2 as nat));
    TwoWordsBefore("input", "swipe", t1);
    ValueShow(x1 as nat);
    ValueShow(y1 as nat);
    ValueShow(x2 as nat);
    ValueShow(y2 as nat);
  }

  /** The key command is exactly three fields, the last the key code. */
  lemma KeyEventWords(keycode: u32)
    ensures Words(KeyEvent(keycode)) == ["input", "keyevent", Show(keycode as nat)]
    ensures Value(Words(KeyEvent(keycode))[2]) == keycode as nat
  {
    var k := Show(keycode as nat);
    assert KeyEvent(keycode) == "input" + " " + ("keyevent" + " " + k);
    WordsOfNumeral(keycode as nat);
    WordsCons("keyevent", k);
    WordsCons("input", "keyevent" + " " + k);
    ValueShow(keycode as nat);
  }

  /** A text with a space in it has at least two fields. */
  lemma WordsWithSpace(s: string)
    requires ' ' in s
    ensures |Words(s)| >= 2
  {
    var i :| 0 <= i < |s| && s[i] == ' ';
    assert s == s[..i] + [' '] + s[i + 1..];
    WordsJoin(s[..i], s[i + 1..]);
  }

  /** The text's own fields follow the two fields `input` and `text`. */
  lemma TextWords(text: string)
    ensures Words(Text(text)) == ["input", "text"] + Words(text)
  {
    var tail := "text" + " " + text;
    assert Text(text) == "input" + " " + tail;
    assert Words(tail) == ["text"] + Words(text) by {
      WordsCons("text", text);
    }
    WordsCons("input", tail);
  }

  /** The text is not escaped: a space in it cuts the command line into
      more than the three fields `input`, `text` and the text. */
  lemma TextNotEscaped(text: string)
    requires ' ' in text
    ensures |Words(Text(text))| > 3
  {
    TextWords(text);
    WordsWithSpace(text);
  }

  /** The screen capture command is the program and its one flag. */
  lemma ScreencapWords()
    ensures Words(Screencap) == ["screencap", "-p"]
  {
    assert Screencap == "screencap" + " " + "-p";
    WordsCons("screencap", "-p");
    OneWord("-p");
  }
}
