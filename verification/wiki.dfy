/** The Wikipedia link attached to a polygon's details: the id with every
    '-' written as "%20" after a fixed prefix. */
module Wiki {
  import opened Text

  const WikiUrlPrefix: string := "http://en.wikipedia.org/wiki/"

  const Hyphen: char := '-'

  /** The escape written in place of each hyphen. */
  const EscapedSpace: string := "%20"

  /** The link for a polygon id. It starts with the prefix, holds no hyphen
      at all, and is two characters longer than prefix plus id for every
      hyphen of the id. */
  function WikiUrl(id: string): (url: string)
    ensures |url| == |WikiUrlPrefix| + |id| + 2 * multiset(id)[Hyphen]
    ensures url[..|WikiUrlPrefix|] == WikiUrlPrefix
    ensures Hyphen !in url
  {
    ReplaceCharLength(id, Hyphen, EscapedSpace);
    ReplaceCharRemoves(id, Hyphen, EscapedSpace);
    WikiUrlPrefix + ReplaceAll(id, [Hyphen], EscapedSpace)
  }

  /** The link is built one character at a time: appending a character to
      the id appends "%20" to the link for a hyphen and the character
      itself for anything else. With `WikiUrl("") == WikiUrlPrefix` this
      fixes the link of every id. */
  lemma WikiUrlAppend(id: string, c: char)
    ensures WikiUrl(id + [c]) == WikiUrl(id) + (if c == Hyphen then EscapedSpace else [c])
  {
    ReplaceCharConcat(id, [c], Hyphen, EscapedSpace);
    ReplaceCharSingle(c, Hyphen, EscapedSpace);
  }

  /** An id without hyphens appears in its link unchanged. */
  lemma WikiUrlWithoutHyphen(id: string)
    requires Hyphen !in id
    ensures WikiUrl(id) == WikiUrlPrefix + id
  {
    ContainsChar(id, Hyphen);
  }
}
