/**
 * models.py: the `Tweet` table. Every column is non-null; `created_at` is a
 * timestamp, modelled as an abstract integer supplied at insertion.
 */
module Models {
  import opened Text

  /** The declared widths of `String(80)` and `String(280)`. */
  const UsernameWidth: nat := 80
  const ContentWidth: nat := 280

  /** One row: integer primary key, author name, text and creation time. */
  datatype Tweet = Tweet(id: int, username: string, content: string, createdAt: int)

  /**
   * The declared column widths. SQLite stores longer strings anyway, so this
   * is a description of the schema, not an invariant of the table.
   */
  predicate FitsDeclaredColumns(t: Tweet) {
    |t.username| <= UsernameWidth && |t.content| <= ContentWidth
  }

  const ReprHead: string := "<Tweet "
  const ReprSeparator: string := ": "

  /** `__repr__`: the id in decimal and the author name. */
  function Repr(t: Tweet): string {
    ReprHead + IntToString(t.id) + ReprSeparator + t.username + ">"
  }

  /** The shape of a representation: it opens with `<Tweet ` and closes with `>`. */
  lemma ReprShape(t: Tweet)
    ensures ReprHead <= Repr(t)
    ensures |Repr(t)| >= |ReprHead| + 4 && Repr(t)[|Repr(t)| - 1] == '>'
  {
  }

  /**
   * Two tweets with the same representation have the same id and author name:
   * the decimal id never contains the `:` that ends it.
   */
  lemma ReprDeterminesIdAndName(t1: Tweet, t2: Tweet)
    requires Repr(t1) == Repr(t2)
    ensures t1.id == t2.id && t1.username == t2.username
  {
    var d1, d2 := IntToString(t1.id), IntToString(t2.id);
    var s := Repr(t1);
    var h := |ReprHead|;
    assert s == ReprHead + d1 + ReprSeparator + t1.username + ">";
    assert s == ReprHead + d2 + ReprSeparator + t2.username + ">";
    if |d1| < |d2| {
      assert s[h + |d1|] == ':';
      assert s[h + |d1|] == d2[|d1|];
      DecimalTail(d2, |d1|);
      assert false;
    } else if |d2| < |d1| {
      assert s[h + |d2|] == ':';
      assert s[h + |d2|] == d1[|d2|];
      DecimalTail(d1, |d2|);
      assert false;
    }
    assert d1 == s[h..h + |d1|] == d2;
    var n := h + |d1| + |ReprSeparator|;
    assert t1.username == s[n..|s| - 1] == t2.username;
    IntToStringInjective(t1.id, t2.id);
  }
}
