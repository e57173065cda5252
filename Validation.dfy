/** The quality gate's four checks, once a JSON object has been read as rows.
    Each check is a predicate over those rows; the expectation-suite check
    delegates to an external suite whose verdict it returns. */
module Validation {
  import opened Wrappers

  /** One JSON record, reduced to the three fields the checks look at.
      A field absent from this row (while other rows of the file carry it)
      and a JSON null both read as None. A column absent from every row has
      no model here: the reader infers no such column and the lookup raises. */
  datatype Row = Row(id: Option<string>, timestamp: Option<string>, email: Option<string>)

  /** The schema-registry check is a stub: it accepts every object. */
  function ValidateSchemaGlue(bucket: string, key: string, registry: string, schema: string): (matches: bool)
    ensures matches
  {
    true
  }

  // ---------------------------------------------------------------------
  // The e-mail pattern [^@]+@[^\.]+\..+ under Java regular-expression rules
  // ---------------------------------------------------------------------

  /** Characters that Java's `.` does not match by default. */
  predicate IsLineTerminator(c: char)
  {
    c == '\n' || c == '\r' || c == '\U{85}' || c == '\U{2028}' || c == '\U{2029}'
  }

  /** `t` splits as [^@]+ then '@' at m, [^.]+ then '.' at d, then .+ */
  ghost predicate FullMatchAt(t: string, m: int, d: int)
  {
    && 0 < m && m + 1 < d && d + 1 < |t|
    && (forall k :: 0 <= k < m ==> t[k] != '@')
    && t[m] == '@'
    && (forall k :: m < k < d ==> t[k] != '.')
    && t[d] == '.'
    && (forall k :: d < k < |t| ==> !IsLineTerminator(t[k]))
  }

  /** The whole of `t` is in the language of the pattern. */
  ghost predicate FullMatch(t: string)
  {
    exists m, d :: FullMatchAt(t, m, d)
  }

  /** Some substring of `s` matches: what a regex search (regexp_extract with
      group 0 being non-empty) reports. */
  ghost predicate SearchMatch(s: string)
  {
    exists i, j :: 0 <= i <= j <= |s| && FullMatch(s[i..j])
  }

  /** Executable form of the search: a non-'@' before an '@', at least one
      non-'.' after it, a '.', and one more character that is not a line end. */
  predicate HasEmailMatch(s: string)
  {
    exists m, d | 0 < m < |s| && 0 < d < |s| :: EmailAt(s, m, d)
  }

  /** '@' at m with a non-'@' before it, '.' at d with a non-line-end after it,
      and at least one character, none of them '.', in between. */
  predicate EmailAt(s: string, m: int, d: int)
  {
    && 0 < m && m + 1 < d && d + 1 < |s|
    && s[m - 1] != '@' && s[m] == '@' && s[d] == '.' && !IsLineTerminator(s[d + 1])
    && NoDotBetween(s, m, d)
  }

  /** No '.' strictly between positions m and d. */
  predicate NoDotBetween(s: string, m: int, d: int)
    requires 0 <= m <= d <= |s|
  {
    forall k :: m < k < d ==> s[k] != '.'
  }

  /** A match found by the executable test is a matching substring. */
  lemma EmailSearchSound(s: string, m: int, d: int)
    requires EmailAt(s, m, d)
    ensures FullMatch(s[m - 1..d + 2]) && SearchMatch(s)
  {
    var t := s[m - 1..d + 2];
    var d' := d - m + 1;
    assert t[0] == s[m - 1] && t[1] == s[m] && t[d'] == s[d] && t[d' + 1] == s[d + 1];
    forall k | 1 < k < d' ensures t[k] != '.' {
      assert t[k] == s[m - 1 + k];
    }
    forall k | d' < k < |t| ensures !IsLineTerminator(t[k]) {
      assert k == d' + 1;
    }
    assert FullMatchAt(t, 1, d');
  }

  /** A matching substring gives the executable test its witnesses. */
  lemma EmailSearchComplete(s: string, i: int, j: int)
    requires 0 <= i <= j <= |s| && FullMatch(s[i..j])
    ensures HasEmailMatch(s)
  {
    var t := s[i..j];
    var m, d :| FullMatchAt(t, m, d);
    assert s[i + m - 1] == t[m - 1];
    assert s[i + m] == t[m] && s[i + d] == t[d] && s[i + d + 1] == t[d + 1];
    forall k | i + m < k < i + d ensures s[k] != '.' {
      assert s[k] == t[k - i];
    }
    assert EmailAt(s, i + m, i + d);
  }

  /** The executable test decides exactly the regex search. */
  lemma EmailSearch(s: string)
    ensures HasEmailMatch(s) <==> SearchMatch(s)
  {
    if HasEmailMatch(s) {
      var m, d :| EmailAt(s, m, d);
      EmailSearchSound(s, m, d);
    }
    if SearchMatch(s) {
      var i, j :| 0 <= i <= j <= |s| && FullMatch(s[i..j]);
      EmailSearchComplete(s, i, j);
    }
  }

  /** "x a@b.c y" passes: the search finds "a@b.c y" inside it. */
  lemma EmailInsideText()
    ensures HasEmailMatch("x a@b.c y") && SearchMatch("x a@b.c y")
  {
    var s := "x a@b.c y";
    assert NoDotBetween(s, 3, 5);
    assert EmailAt(s, 3, 5);
    EmailSearch(s);
  }

  /** Too short to hold local part, '@', domain, '.', and suffix: no match. */
  lemma EmailTooShort()
    ensures !SearchMatch("a@.c") && !SearchMatch("@b.c") && !SearchMatch("a@b.")
  {
    EmailSearch("a@.c");
    EmailSearch("@b.c");
    EmailSearch("a@b.");
  }

  /** The only '@' is followed at once by '.', so the domain part is empty. */
  lemma EmailEmptyDomain()
    ensures !SearchMatch("a@.b.c")
  {
    var s := "a@.b.c";
    forall m, d ensures !EmailAt(s, m, d) {
      if m == 1 {
        assert s[2] == '.';
      }
    }
    EmailSearch(s);
  }

  /** The domain part may itself contain '@': "x@@y.z" matches. */
  lemma EmailDomainWithAt()
    ensures SearchMatch("x@@y.z")
  {
    var s := "x@@y.z";
    assert NoDotBetween(s, 1, 4);
    assert EmailAt(s, 1, 4);
    EmailSearch(s);
  }

  // ---------------------------------------------------------------------
  // Record rules: filter the valid rows and compare counts
  // ---------------------------------------------------------------------

  /** The row filter: id and timestamp present, e-mail present and matching. */
  predicate RowValid(r: Row)
  {
    r.id.Some? && r.timestamp.Some? && r.email.Some? && HasEmailMatch(r.email.value)
  }

  /** Number of rows the filter keeps. */
  function CountValid(rows: seq<Row>): nat
  {
    if rows == [] then 0 else CountValid(rows[..|rows| - 1]) + (if RowValid(rows[|rows| - 1]) then 1 else 0)
  }

  /** The kept count never exceeds the total, and reaches it exactly when
      every row is valid. */
  lemma {:induction false} CountValidAll(rows: seq<Row>)
    ensures CountValid(rows) <= |rows|
    ensures CountValid(rows) == |rows| <==> forall i :: 0 <= i < |rows| ==> RowValid(rows[i])
  {
    if rows != [] {
      var init := rows[..|rows| - 1];
      CountValidAll(init);
      assert forall i :: 0 <= i < |init| ==> init[i] == rows[i];
    }
  }

  /** Passes when the filtered count equals the total count. */
  function ValidateRecordRules(rows: seq<Row>): (passed: bool)
    ensures passed <==> forall i :: 0 <= i < |rows| ==> RowValid(rows[i])
  {
    CountValidAll(rows);
    CountValid(rows) == |rows|
  }

  // ---------------------------------------------------------------------
  // Deequ: dataset size above zero and `id` complete
  // ---------------------------------------------------------------------

  /** Number of rows whose id is not null. */
  function CountIdPresent(rows: seq<Row>): nat
  {
    if rows == [] then 0 else CountIdPresent(rows[..|rows| - 1]) + (if rows[|rows| - 1].id.Some? then 1 else 0)
  }

  /** Completeness of `id` is 1 exactly when no row's id is null. */
  lemma {:induction false} CountIdPresentAll(rows: seq<Row>)
    ensures CountIdPresent(rows) <= |rows|
    ensures CountIdPresent(rows) == |rows| <==> forall i :: 0 <= i < |rows| ==> rows[i].id.Some?
  {
    if rows != [] {
      var init := rows[..|rows| - 1];
      CountIdPresentAll(init);
      assert forall i :: 0 <= i < |init| ==> init[i] == rows[i];
    }
  }

  /** Success when the size constraint (more than zero rows) and the
      completeness constraint on `id` both hold. */
  function ValidateDeequ(rows: seq<Row>): (success: bool)
    ensures success <==> |rows| > 0 && forall i :: 0 <= i < |rows| ==> rows[i].id.Some?
  {
    CountIdPresentAll(rows);
    |rows| > 0 && CountIdPresent(rows) == |rows|
  }

  // ---------------------------------------------------------------------
  // Great Expectations: the suite's own verdict
  // ---------------------------------------------------------------------

  /** The outcome of running the external expectation suite on one object. */
  datatype SuiteResult = SuiteResult(success: bool)

  function ValidateGe(result: SuiteResult): (success: bool)
    ensures success == result.success
  {
    result.success
  }

  // ---------------------------------------------------------------------
  // How the checks relate
  // ---------------------------------------------------------------------

  /** An empty dataset passes the record rules (0 of 0 rows kept) but fails
      Deequ. This is the verdict on a file that parses to no rows yet still
      has the three columns; an empty file has no columns and the record
      rules raise instead. */
  lemma EmptyDataset()
    ensures ValidateRecordRules([]) && !ValidateDeequ([])
  {
  }

  /** On a non-empty dataset the record rules imply the Deequ check, since a
      non-null id is one of the row rules. */
  lemma RecordRulesImplyDeequ(rows: seq<Row>)
    requires |rows| > 0 && ValidateRecordRules(rows)
    ensures ValidateDeequ(rows)
  {
  }

  /** Together the record rules and Deequ accept exactly the non-empty
      datasets whose every row is valid. */
  lemma RecordsAndDeequ(rows: seq<Row>)
    ensures (ValidateRecordRules(rows) && ValidateDeequ(rows)) <==>
            (|rows| > 0 && forall i :: 0 <= i < |rows| ==> RowValid(rows[i]))
  {
  }
}
