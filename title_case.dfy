/** Name normalisation of `DriverService::to_title_case`
    (`src/driver/services.rs`): trim the name, split it at every whitespace
    character and every `-`, capitalise each piece (first character upper
    case, the rest lower case) and join the pieces with `-`.  Case mapping
    is the ASCII one of module `Text`. */
module TitleCase {
  import opened Text

  /** Unicode's White_Space property, which both `str::trim` and
      `char::is_whitespace` test. */
  predicate IsWhitespace(c: char)
  {
    var n := c as int;
    || 0x09 <= n <= 0x0D || n == 0x20 || n == 0x85 || n == 0xA0 || n == 0x1680
    || 0x2000 <= n <= 0x200A || n == 0x2028 || n == 0x2029 || n == 0x202F
    || n == 0x205F || n == 0x3000
  }

  /** The characters the name is split at. */
  predicate IsSeparator(c: char)
  {
    IsWhitespace(c) || c == '-'
  }

  /** `str::trim_start`: the longest suffix not starting with whitespace,
      the part cut off being all whitespace. */
  function TrimStart(s: string): (r: string)
    ensures |r| <= |s| && r == s[|s| - |r|..]
    ensures forall i :: 0 <= i < |s| - |r| ==> IsWhitespace(s[i])
    ensures r != [] ==> !IsWhitespace(r[0])
  {
    if s != [] && IsWhitespace(s[0]) then TrimStart(s[1..]) else s
  }

  /** `str::trim_end`: the longest prefix not ending with whitespace, the
      part cut off being all whitespace. */
  function TrimEnd(s: string): (r: string)
    ensures |r| <= |s| && r == s[..|r|]
    ensures forall i :: |r| <= i < |s| ==> IsWhitespace(s[i])
    ensures r != [] ==> !IsWhitespace(r[|r| - 1])
  {
    if s != [] && IsWhitespace(s[|s| - 1]) then TrimEnd(s[..|s| - 1]) else s
  }

  /** `str::trim`. */
  function Trim(s: string): (r: string)
    ensures |r| <= |s|
    ensures r != [] ==> !IsWhitespace(r[0]) && !IsWhitespace(r[|r| - 1])
  {
    TrimEnd(TrimStart(s))
  }

  /** A string without whitespace is its own trim. */
  lemma TrimWithoutWhitespace(s: string)
    requires forall i :: 0 <= i < |s| ==> !IsWhitespace(s[i])
    ensures Trim(s) == s
  {
  }

  /** `s.split(|c| c.is_whitespace() || c == '-')`: the maximal runs of
      non-separators, an empty piece between two adjacent separators and at
      either end next to a separator, and always at least one piece. */
  function Split(s: string): (pieces: seq<string>)
    ensures |pieces| >= 1
    ensures forall p, i :: p in pieces && 0 <= i < |p| ==> !IsSeparator(p[i])
  {
    if s == [] then [""]
    else if IsSeparator(s[0]) then [""] + Split(s[1..])
    else
      var rest := Split(s[1..]);
      [[s[0]] + rest[0]] + rest[1..]
  }

  /** The map applied to each piece: the first character upper case and
      the rest lower case; an empty piece stays empty. */
  function Capitalize(word: string): (r: string)
    ensures |r| == |word|
  {
    if word == [] then "" else [ToUpperChar(word[0])] + ToLower(word[1..])
  }

  function CapitalizeAll(pieces: seq<string>): (r: seq<string>)
    ensures |r| == |pieces|
    ensures forall i :: 0 <= i < |pieces| ==> r[i] == Capitalize(pieces[i])
  {
    seq(|pieces|, i requires 0 <= i < |pieces| => Capitalize(pieces[i]))
  }

  /** `to_title_case`. */
  function ToTitleCase(name: string): string
  {
    Join(CapitalizeAll(Split(Trim(name))), "-")
  }

  /** A reference definition, character by character: every separator
      becomes `-`, a character that starts a piece is upper-cased, any other
      is lower-cased.  `atStart` says whether `s[0]` starts a piece. */
  function TitleChars(s: string, atStart: bool): (r: string)
    ensures |r| == |s|
  {
    if s == [] then ""
    else if IsSeparator(s[0]) then "-" + TitleChars(s[1..], true)
    else [if atStart then ToUpperChar(s[0]) else ToLowerChar(s[0])] + TitleChars(s[1..], false)
  }

  /** The character-by-character definition, stated index by index. */
  lemma {:induction false} TitleCharsAt(s: string, atStart: bool, i: int)
    requires 0 <= i < |s|
    ensures TitleChars(s, atStart)[i]
         == if IsSeparator(s[i]) then '-'
            else if (if i == 0 then atStart else IsSeparator(s[i - 1])) then ToUpperChar(s[i])
            else ToLowerChar(s[i])
  {
    if i > 0 {
      TitleCharsAt(s[1..], IsSeparator(s[0]), i - 1);
    }
  }

  function PieceCase(piece: string, atStart: bool): string
  {
    if atStart then Capitalize(piece) else ToLower(piece)
  }

  lemma JoinCons(first: string, rest: seq<string>, sep: string)
    requires rest != []
    ensures Join([first] + rest, sep) == first + sep + Join(rest, sep)
  {
    assert ([first] + rest)[1..] == rest;
  }

  lemma {:induction false} JoinPrepend(c: char, first: string, rest: seq<string>, sep: string)
    ensures Join([[c] + first] + rest, sep) == [c] + Join([first] + rest, sep)
  {
    if rest != [] {
      JoinCons([c] + first, rest, sep);
      JoinCons(first, rest, sep);
    }
  }

  /** Splitting, mapping and joining agrees with the character-by-character
      definition; the first piece is capitalised or lower-cased according
      to `atStart`. */
  lemma {:induction false} SplitMapJoin(s: string, atStart: bool)
    ensures var pieces := Split(s);
            Join([PieceCase(pieces[0], atStart)] + CapitalizeAll(pieces[1..]), "-") == TitleChars(s, atStart)
    decreases |s|
  {
    if s == [] {
    } else if IsSeparator(s[0]) {
      SplitMapJoin(s[1..], true);
      SeparatorStep(s, atStart);
    } else {
      SplitMapJoin(s[1..], false);
      LetterStep(s, atStart);
    }
  }

  lemma SeparatorStep(s: string, atStart: bool)
    requires s != [] && IsSeparator(s[0])
    requires var tail := Split(s[1..]);
             Join([PieceCase(tail[0], true)] + CapitalizeAll(tail[1..]), "-") == TitleChars(s[1..], true)
    ensures var pieces := Split(s);
            Join([PieceCase(pieces[0], atStart)] + CapitalizeAll(pieces[1..]), "-") == TitleChars(s, atStart)
  {
    var tail := Split(s[1..]);
    var pieces := Split(s);
    assert pieces == [""] + tail;
    assert pieces[1..] == tail;
    assert PieceCase(pieces[0], atStart) == "";
    assert CapitalizeAll(tail) == [PieceCase(tail[0], true)] + CapitalizeAll(tail[1..]);
    JoinCons("", CapitalizeAll(tail), "-");
  }

  lemma LetterStep(s: string, atStart: bool)
    requires s != [] && !IsSeparator(s[0])
    requires var tail := Split(s[1..]);
             Join([PieceCase(tail[0], false)] + CapitalizeAll(tail[1..]), "-") == TitleChars(s[1..], false)
    ensures var pieces := Split(s);
            Join([PieceCase(pieces[0], atStart)] + CapitalizeAll(pieces[1..]), "-") == TitleChars(s, atStart)
  {
    var tail := Split(s[1..]);
    var pieces := Split(s);
    SplitLetter(s);
    var c := if atStart then ToUpperChar(s[0]) else ToLowerChar(s[0]);
    PieceCaseCons(s[0], tail[0], atStart);
    assert PieceCase(tail[0], false) == ToLower(tail[0]);
    JoinPrepend(c, ToLower(tail[0]), CapitalizeAll(tail[1..]), "-");
    assert TitleChars(s, atStart) == [c] + TitleChars(s[1..], false);
  }

  /** A letter joins the first piece of the rest of the string. */
  lemma SplitLetter(s: string)
    requires s != [] && !IsSeparator(s[0])
    ensures Split(s)[0] == [s[0]] + Split(s[1..])[0]
    ensures Split(s)[1..] == Split(s[1..])[1..]
  {
  }

  /** The case of a piece is decided by its first character. */
  lemma PieceCaseCons(x: char, rest: string, atStart: bool)
    ensures PieceCase([x] + rest, atStart)
         == [if atStart then ToUpperChar(x) else ToLowerChar(x)] + ToLower(rest)
  {
    assert ([x] + rest)[1..] == rest;
  }

  /** `to_title_case` is the character-by-character definition applied to
      the trimmed name. */
  lemma TitleCaseByCharacter(name: string)
    ensures ToTitleCase(name) == TitleChars(Trim(name), true)
  {
    var pieces := Split(Trim(name));
    SplitMapJoin(Trim(name), true);
    assert CapitalizeAll(pieces) == [Capitalize(pieces[0])] + CapitalizeAll(pieces[1..]);
  }

  /** The result is exactly as long as the trimmed name: nothing is dropped
      and empty pieces keep their separators. */
  lemma TitleCaseLength(name: string)
    ensures |ToTitleCase(name)| == |Trim(name)|
  {
    TitleCaseByCharacter(name);
  }

  lemma {:induction false} TitleCharsHasNoWhitespace(s: string, atStart: bool)
    ensures forall i :: 0 <= i < |TitleChars(s, atStart)| ==> !IsWhitespace(TitleChars(s, atStart)[i])
  {
    if s != [] {
      TitleCharsHasNoWhitespace(s[1..], false);
      TitleCharsHasNoWhitespace(s[1..], true);
    }
  }

  lemma {:induction false} TitleCharsIdempotent(s: string, atStart: bool)
    ensures TitleChars(TitleChars(s, atStart), atStart) == TitleChars(s, atStart)
  {
    if s != [] {
      var r := TitleChars(s, atStart);
      if IsSeparator(s[0]) {
        TitleCharsIdempotent(s[1..], true);
        assert r[1..] == TitleChars(s[1..], true);
      } else {
        TitleCharsIdempotent(s[1..], false);
        assert r[1..] == TitleChars(s[1..], false);
        assert !IsSeparator(r[0]);
      }
    }
  }

  /** Normalising a normalised name changes nothing. */
  lemma TitleCaseIdempotent(name: string)
    ensures ToTitleCase(ToTitleCase(name)) == ToTitleCase(name)
  {
    var r := ToTitleCase(name);
    TitleCaseByCharacter(name);
    TitleCharsHasNoWhitespace(Trim(name), true);
    TrimWithoutWhitespace(r);
    TitleCaseByCharacter(r);
    TitleCharsIdempotent(Trim(name), true);
  }

  lemma TrimKeepsInnerBlanks()
    ensures Trim("a  b") == "a  b"
  {
    assert TrimStart("a  b") == "a  b";
    assert TrimEnd("a  b") == "a  b";
  }

  lemma TitleCharsOfDoubleBlank()
    ensures TitleChars("a  b", true) == "A--B"
  {
    assert "a  b"[1..] == "  b" && "  b"[1..] == " b" && " b"[1..] == "b";
    assert TitleChars("b", true) == "B";
    assert TitleChars(" b", true) == "-B";
    assert TitleChars("  b", false) == "--B";
  }

  /** Two blanks in a row leave an empty piece, hence a doubled `-`. */
  lemma DoubleBlankGivesEmptyPiece()
    ensures ToTitleCase("a  b") == "A--B"
  {
    TitleCaseByCharacter("a  b");
    TrimKeepsInnerBlanks();
    TitleCharsOfDoubleBlank();
  }
}
