/** The avatar (`components/Avatar/Avatar.tsx`): the user's picture when a
    picture reference is truthy, otherwise up to two initials drawn from the
    username. Theme styles are not modelled; the size-derived dimensions
    are. */
module Avatar {
  import opened Base
  import opened Text

  /** The default `size` prop. */
  const DefaultSize: real := 32.0

  /** `${s[0]}` of a template literal: the first character, or the text
      `undefined` when the string is empty. */
  function FirstCharText(s: string): (r: string)
    ensures s != "" ==> r == [s[0]]
    ensures s == "" ==> r == "undefined"
  {
    if s == "" then "undefined" else [s[0]]
  }

  /** `getInitials(name)`: `?` for the empty name; for a trimmed name with
      two or more space-separated parts, the first characters of the first
      two parts, upper-cased; otherwise the first character of the name as
      given (not trimmed), upper-cased. */
  function GetInitials(name: string): (r: string)
    ensures name == "" ==> r == "?"
    ensures r != ""
  {
    if name == "" then "?"
    else
      var parts := Split(Trim(name), " ");
      if |parts| >= 2 then Upper(FirstCharText(parts[0]) + FirstCharText(parts[1]))
      else Upper([name[0]])
  }

  /** A single word (no space inside, none around) gives its first
      letter. */
  lemma SingleWordInitial(w: string)
    requires w != "" && !IsSpace(w[0]) && !IsSpace(w[|w| - 1])
    requires forall k :: 0 <= k < |w| ==> w[k] != ' '
    ensures GetInitials(w) == [UpperChar(w[0])]
  {
    TrimOfTrimmed(w);
    NoOccurrenceWithout(w, " ", ' ');
  }

  /** Two words joined by one space give the two first letters. */
  lemma TwoWordInitials(a: string, b: string)
    requires a != "" && b != "" && !IsSpace(a[0]) && !IsSpace(b[|b| - 1])
    requires forall k :: 0 <= k < |a| ==> a[k] != ' '
    requires forall k :: 0 <= k < |b| ==> b[k] != ' '
    ensures GetInitials(a + " " + b) == [UpperChar(a[0]), UpperChar(b[0])]
  {
    var name := a + " " + b;
    TwoWordParts(a, b);
    InitialsOfParts(name, a, b);
    assert FirstCharText(a) + FirstCharText(b) == [a[0], b[0]];
  }

  /** Two space-free words joined by one space split back into the two. */
  lemma TwoWordParts(a: string, b: string)
    requires a != "" && b != "" && !IsSpace(a[0]) && !IsSpace(b[|b| - 1])
    requires forall k :: 0 <= k < |a| ==> a[k] != ' '
    requires forall k :: 0 <= k < |b| ==> b[k] != ' '
    ensures Split(Trim(a + " " + b), " ") == [a, b]
  {
    var name := a + " " + b;
    assert Trim(name) == name by {
      assert name[0] == a[0] && name[|name| - 1] == b[|b| - 1];
      TrimOfTrimmed(name);
    }
    SplitHead(a, " ", b, ' ');
    NoOccurrenceWithout(b, " ", ' ');
  }

  /** A name whose trimmed split starts with `x` and `y` is read from
      those two parts. */
  lemma InitialsOfParts(name: string, x: string, y: string)
    requires name != ""
    requires var parts := Split(Trim(name), " "); |parts| >= 2 && parts[0] == x && parts[1] == y
    ensures GetInitials(name) == Upper(FirstCharText(x) + FirstCharText(y))
  {
  }

  /** The split of a name whose first two words are two spaces apart has
      an empty second part. */
  lemma DoubleSpaceParts(a: string, b: string)
    requires a != "" && !IsSpace(a[0]) && b != "" && !IsSpace(b[|b| - 1])
    requires forall k :: 0 <= k < |a| ==> a[k] != ' '
    ensures var parts := Split(Trim(a + "  " + b), " ");
      |parts| >= 2 && parts[0] == a && parts[1] == ""
  {
    var name := a + "  " + b;
    assert Trim(name) == name by {
      assert name[0] == a[0] && name[|name| - 1] == b[|b| - 1];
      TrimOfTrimmed(name);
    }
    assert Split(name, " ") == [a] + ([""] + Split(b, " ")) by {
      assert name == a + " " + " " + b;
      DoubledSeparatorSplit(a, " ", b, ' ');
    }
  }

  /** Splitting where a separator is doubled yields an empty part between
      the two copies. */
  lemma DoubledSeparatorSplit(a: string, sep: string, b: string, c: char)
    requires |sep| > 0 && sep[0] == c
    requires forall k :: 0 <= k < |a| ==> a[k] != c
    ensures Split(a + sep + sep + b, sep) == [a] + ([""] + Split(b, sep))
  {
    assert a + sep + sep + b == a + sep + (sep + b);
    SplitHead(a, sep, sep + b, c);
    assert Split(sep + b, sep) == [""] + Split(b, sep) by {
      assert sep + b == "" + sep + b;
      SplitHead("", sep, b, c);
    }
  }

  /** Two words joined by two spaces: the second part of the split is
      empty, so the initials read the first letter followed by `UNDEFINED`. */
  lemma DoubleSpaceQuirk(a: string, b: string)
    requires a != "" && b != "" && !IsSpace(a[0]) && !IsSpace(b[|b| - 1])
    requires forall k :: 0 <= k < |a| ==> a[k] != ' '
    ensures GetInitials(a + "  " + b) == [UpperChar(a[0])] + "UNDEFINED"
  {
    var name := a + "  " + b;
    DoubleSpaceParts(a, b);
    InitialsOfParts(name, a, "");
    UpperAppend([a[0]], "undefined");
    UpperUndefined();
  }

  /** `toUpperCase` works character by character. */
  lemma UpperAppend(x: string, y: string)
    ensures Upper(x + y) == Upper(x) + Upper(y)
  {
  }

  /** The text of `undefined`, upper-cased. */
  lemma UpperUndefined()
    ensures Upper("undefined") == "UNDEFINED"
  {
  }

  /** A name with leading blanks but a single word after them gives the
      blank itself, since the first character is read from the untrimmed
      name. */
  lemma LeadingSpaceQuirk(w: string)
    requires w != "" && !IsSpace(w[0]) && !IsSpace(w[|w| - 1])
    requires forall k :: 0 <= k < |w| ==> w[k] != ' '
    ensures GetInitials(" " + w) == " "
  {
    var name := " " + w;
    assert Trim(name) == Trim(w) by {
      assert LeadingSpaces(name) == 1 by {
        assert name[1..] == w;
      }
      assert name[1..] == w;
    }
    TrimOfTrimmed(w);
    NoOccurrenceWithout(w, " ", ' ');
  }

  /** What the component draws: the picture in a square frame, or the
      initials on a placeholder with a font 0.4 times the size. */
  datatype AvatarView =
    | Picture(source: Source, size: real, borderRadius: real)
    | Initials(text: string, size: real, borderRadius: real, fontSize: real)

  /** The text the placeholder shows: initials of the username, or of `U`
      when the username is missing or empty. */
  function PlaceholderText(username: Option<string>): (text: string)
    ensures TruthyString(username) ==> text == GetInitials(username.value)
    ensures !TruthyString(username) ==> text == "U"
  {
    var name := OrString(username, Some("U")).value;
    SingleWordInitial("U");
    GetInitials(name)
  }

  /** The component's render. */
  function Render(uri: Option<Ref>, username: Option<string>, size: Option<real>): (v: AvatarView)
    ensures v.Picture? <==> TruthyRef(uri)
    ensures v.Picture? ==> v.source == ToSource(uri.value)
    ensures v.Initials? ==> v.text == PlaceholderText(username) && v.fontSize == v.size * 0.4
    ensures v.size == size.GetOr(DefaultSize) && v.borderRadius * 2.0 == v.size
  {
    var s := size.GetOr(DefaultSize);
    if TruthyRef(uri) then Picture(ToSource(uri.value), s, s / 2.0)
    else Initials(PlaceholderText(username), s, s / 2.0, s * 0.4)
  }

  /** An unusable picture reference (missing, empty or the handle 0) falls
      back to the initials, whatever the picture would have been. */
  lemma FalsyPictureShowsInitials(uri: Option<Ref>, username: Option<string>, size: Option<real>)
    requires !TruthyRef(uri)
    ensures Render(uri, username, size) == Render(None, username, size)
  {
  }
}
