/** The avatar of components/ui/avatar.tsx: a picture when a source is
    given, otherwise the initials of the name. Case mapping is ASCII's. */
module Avatar {
  import opened Types
  import opened Text

  /** `s.charAt(0)`: the first character, or the empty text. */
  function CharAt0(s: string): (r: string)
    ensures |r| <= 1 && (s != "" ==> r == [s[0]]) && (s == "" ==> r == "")
  {
    if s == "" then "" else [s[0]]
  }

  /** `getInitials`. */
  function Initials(name: Option<string>): string {
    if name.None? || name.value == "" then "?"
    else
      var words := Split(name.value, ' ');
      if |words| == 1 then Upper(CharAt0(words[0]))
      else Upper(CharAt0(words[0]) + CharAt0(words[|words| - 1]))
  }

  /** The first word is empty exactly when the name starts with a space,
      and otherwise starts with the name's first character. */
  lemma SplitFirst(s: string, sep: char)
    requires s != ""
    ensures Split(s, sep)[0] == "" <==> s[0] == sep
    ensures s[0] != sep ==> Split(s, sep)[0][0] == s[0]
  {
  }

  /** No name gives '?'; a name without spaces gives its first letter in
      upper case; a name with spaces gives the upper-cased first letters of
      its first and last space-separated words, where a leading space leaves
      the first one empty. There are never more than two characters. */
  lemma InitialsCases(name: Option<string>)
    ensures |Initials(name)| <= 2
    ensures name.None? || name == Some("") ==> Initials(name) == "?"
    ensures name.Some? && name.value != "" && ' ' !in name.value ==> Initials(name) == [UpperChar(name.value[0])]
    ensures name.Some? && name.value != "" && ' ' in name.value ==>
              var words := Split(name.value, ' ');
              Initials(name) == Upper(CharAt0(words[0]) + CharAt0(words[|words| - 1]))
              && (name.value[0] != ' ' ==> Initials(name)[0] == UpperChar(name.value[0]))
              && (name.value[0] == ' ' ==> Initials(name) == Upper(CharAt0(words[|words| - 1])))
  {
    if name.Some? && name.value != "" {
      var s := name.value;
      SplitSingle(s, ' ');
      SplitFirst(s, ' ');
      var words := Split(s, ' ');
      if ' ' in s {
        assert |words| != 1;
        if s[0] == ' ' {
          assert CharAt0(words[0]) + CharAt0(words[|words| - 1]) == CharAt0(words[|words| - 1]);
        }
      }
    }
  }

  /** What the avatar renders. */
  datatype Content = Picture(src: string, alt: string) | InitialsText(text: string)

  /** `src ? <img alt={alt || name || 'Avatar'}/> : <span>{getInitials(name)}</span>`. */
  function Render(src: Option<string>, alt: Option<string>, name: Option<string>): Content {
    if src.Some? && src.value != "" then
      Picture(src.value,
              if alt.Some? && alt.value != "" then alt.value
              else if name.Some? && name.value != "" then name.value
              else "Avatar")
    else InitialsText(Initials(name))
  }

  /** Initials are shown exactly when no source is given, and a picture
      always has a non-empty description. */
  lemma RenderShowsInitialsOnlyWithoutSource(src: Option<string>, alt: Option<string>, name: Option<string>)
    ensures Render(src, alt, name).InitialsText? <==> src.None? || src.value == ""
    ensures Render(src, alt, name).InitialsText? ==> Render(src, alt, name).text == Initials(name)
    ensures Render(src, alt, name).Picture? ==> Render(src, alt, name).alt != ""
  {
  }
}
