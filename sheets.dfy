/**
 * The row-parsing loops of `fetch_all_data` (src/services/sheets.py): the
 * questions sheet becomes the question lists by mode, the prompts sheet the
 * prompt text by mode. A sheet is the list of rows `get_all_values` returns,
 * each row a list of cell strings; opening the spreadsheet is not modelled.
 */
module Sheets {
  import opened Wrappers
  import opened Strings
  import opened Models

  type Row = seq<string>

  /** `rows[1:]`: the first row is the header. */
  function Body(rows: seq<Row>): (body: seq<Row>)
    ensures rows != [] ==> [rows[0]] + body == rows
    ensures rows == [] ==> body == []
  {
    if rows == [] then [] else rows[1..]
  }

  /** `[x.strip() for x in parts]`. */
  function StripAll(parts: seq<string>): (r: seq<string>)
    ensures |r| == |parts|
    ensures forall i :: 0 <= i < |parts| ==> r[i] == Strip(parts[i])
  {
    seq(|parts|, i requires 0 <= i < |parts| => Strip(parts[i]))
  }

  /** The options of a row: the stripped comma-separated parts of the fifth cell, if it is there and not empty. */
  function Options(r: Row): (os: seq<string>)
    // no option holds the separator or has surrounding whitespace
    ensures forall i :: 0 <= i < |os| ==> ',' !in os[i] && (os[i] == [] || (!IsSpace(os[i][0]) && !IsSpace(os[i][|os[i]| - 1])))
    // a row without a non-empty fifth cell has no options
    ensures !(|r| > 4 && r[4] != []) ==> os == []
  {
    if |r| > 4 && r[4] != [] then StripAll(Split(r[4], ',')) else []
  }

  /**
   * A row without a fifth cell, or with an empty one, has no options;
   * otherwise it has one stripped entry per comma-separated part, empty
   * parts kept, and no option holds a comma.
   */
  lemma OptionsMeaning(r: Row)
    ensures |r| <= 4 || r[4] == [] ==> Options(r) == []
    ensures |r| > 4 && r[4] != [] ==> |Options(r)| == Count(r[4], ',') + 1
    ensures |r| > 4 && r[4] != [] ==> forall i :: 0 <= i < |Options(r)| ==> Options(r)[i] == Strip(Split(r[4], ',')[i])
    ensures forall i :: 0 <= i < |Options(r)| ==> ',' !in Options(r)[i]
  {
    if |r| > 4 && r[4] != [] {
      var parts := Split(r[4], ',');
      forall i | 0 <= i < |parts| ensures ',' !in Strip(parts[i]) {
        StripIsSlice(parts[i]);
      }
    }
  }

  /** What `strip` returns is a piece of its argument, so it holds no character the argument lacks. */
  lemma StripIsSlice(s: string)
    ensures forall c :: c in Strip(s) ==> c in s
  {
    var r := Strip(s);
    var a := LeadSpaces(s);
    forall c | c in r ensures c in s {
      var k :| 0 <= k < |r| && r[k] == c;
      assert s[a + k] == c;
    }
  }

  /**
   * What one row of a sheet is read as: either skipped by the loop's guard,
   * or filed under a stripped mode with the item it stands for.
   */
  datatype Entry<T> = Skipped | Filed(mode: string, item: T)

  /** `f` of each row, in sheet order. */
  function MapRows<T>(f: Row -> T, body: seq<Row>): (es: seq<T>)
    ensures |es| == |body|
    ensures forall k :: 0 <= k < |body| ==> es[k] == f(body[k])
  {
    seq(|body|, k requires 0 <= k < |body| => f(body[k]))
  }

  /** Reading two blocks of rows gives the entries of the first followed by those of the second. */
  lemma MapRowsAppend<T>(f: Row -> T, a: seq<Row>, b: seq<Row>)
    ensures MapRows(f, a + b) == MapRows(f, a) + MapRows(f, b)
  {
    forall k | 0 <= k < |a + b| ensures MapRows(f, a + b)[k] == (MapRows(f, a) + MapRows(f, b))[k] {
      if k < |a| {
        assert (a + b)[k] == a[k];
      } else {
        assert (a + b)[k] == b[k - |a|];
      }
    }
  }

  /** The items filed under mode `m` by the first `n` entries, in sheet order. */
  function ListOf<T>(es: seq<Entry<T>>, n: nat, m: string): seq<T>
    requires n <= |es|
  {
    if n == 0 then []
    else ListOf(es, n - 1, m) + (if es[n - 1].Filed? && es[n - 1].mode == m then [es[n - 1].item] else [])
  }

  /** Each listed item was filed under that mode by one of the first `n` entries, and there are no more items than entries. */
  lemma {:induction false} ListOfSound<T>(es: seq<Entry<T>>, n: nat, m: string)
    requires n <= |es|
    ensures |ListOf(es, n, m)| <= n
    ensures forall x :: x in ListOf(es, n, m) ==> exists i :: 0 <= i < n && es[i] == Filed(m, x)
  {
    if n > 0 {
      ListOfSound(es, n - 1, m);
    }
  }

  /** Entries after the first `n` do not change what those give. */
  lemma {:induction false} ListOfPrefix<T>(a: seq<Entry<T>>, b: seq<Entry<T>>, n: nat, m: string)
    requires n <= |a|
    ensures ListOf(a + b, n, m) == ListOf(a, n, m)
  {
    if n > 0 {
      ListOfPrefix(a, b, n - 1, m);
      assert (a + b)[n - 1] == a[n - 1];
    }
  }

  /** The first `|a| + n` entries of `a + b` give all of `a`'s items followed by those of `b`'s first `n`. */
  lemma {:induction false} ListOfAppend<T>(a: seq<Entry<T>>, b: seq<Entry<T>>, n: nat, m: string)
    requires n <= |b|
    ensures ListOf(a + b, |a| + n, m) == ListOf(a, |a|, m) + ListOf(b, n, m)
  {
    if n == 0 {
      ListOfPrefix(a, b, |a|, m);
    } else {
      ListOfAppend(a, b, n - 1, m);
      assert (a + b)[|a| + n - 1] == b[n - 1];
    }
  }

  /** Reading two blocks of rows and listing mode `m` gives the first block's list followed by the second's. */
  lemma ListOfMapRowsAppend<T>(f: Row -> Entry<T>, a: seq<Row>, b: seq<Row>, m: string)
    ensures ListOf(MapRows(f, a + b), |a + b|, m) == ListOf(MapRows(f, a), |a|, m) + ListOf(MapRows(f, b), |b|, m)
  {
    MapRowsAppend(f, a, b);
    ListOfAppend(MapRows(f, a), MapRows(f, b), |b|, m);
  }

  /** The item of the last of the first `n` entries filed under mode `m`, if there is one. */
  function LastOf<T>(es: seq<Entry<T>>, n: nat, m: string): Option<T>
    requires n <= |es|
  {
    if n == 0 then None
    else if es[n - 1].Filed? && es[n - 1].mode == m then Some(es[n - 1].item)
    else LastOf(es, n - 1, m)
  }

  /** There is a last item exactly when some entry is filed under the mode, and it is that of the last such entry. */
  lemma {:induction false} LastOfMeaning<T>(es: seq<Entry<T>>, n: nat, m: string)
    requires n <= |es|
    ensures LastOf(es, n, m).None? <==> forall i :: 0 <= i < n ==> !(es[i].Filed? && es[i].mode == m)
    ensures LastOf(es, n, m).Some? ==>
      exists i :: && 0 <= i < n && es[i] == Filed(m, LastOf(es, n, m).value)
                  && forall j :: i < j < n ==> !(es[j].Filed? && es[j].mode == m)
  {
    if n > 0 && !(es[n - 1].Filed? && es[n - 1].mode == m) {
      LastOfMeaning(es, n - 1, m);
    }
  }

  // ---- Questions ----

  /** The guard of line 29: a question row needs four cells and a non-empty first one. */
  predicate KeptQuestionRow(r: Row)
  {
    |r| >= 4 && r[0] != []
  }

  /** The question a row stands for: key, type and text stripped, and its options. */
  function RowQuestion(r: Row): Question
    requires |r| >= 4
  {
    Question(Strip(r[1]), Strip(r[2]), Strip(r[3]), Options(r))
  }

  /** A question row is filed under its stripped first cell, if it passes the guard. */
  function QuestionEntry(r: Row): Entry<Question>
  {
    if KeptQuestionRow(r) then Filed(Strip(r[0]), RowQuestion(r)) else Skipped
  }

  /** The entries of the question rows, one per row. */
  function QuestionEntries(body: seq<Row>): seq<Entry<Question>>
  {
    MapRows(QuestionEntry, body)
  }

  /** The questions all rows give mode `m`, in sheet order. */
  function QuestionsFor(body: seq<Row>, m: string): seq<Question>
  {
    ListOf(QuestionEntries(body), |body|, m)
  }

  /** Grouping by mode keeps the order of the sheet: two blocks of rows give their lists one after the other. */
  lemma QuestionsForAppend(a: seq<Row>, b: seq<Row>, m: string)
    ensures QuestionsFor(a + b, m) == QuestionsFor(a, m) + QuestionsFor(b, m)
  {
    ListOfMapRowsAppend(QuestionEntry, a, b, m);
  }

  /** A single row gives its question to its own mode if it passes the guard, and nothing otherwise. */
  lemma QuestionsForRow(r: Row, m: string)
    ensures QuestionsFor([r], m) == if KeptQuestionRow(r) && Strip(r[0]) == m then [RowQuestion(r)] else []
  {
    var es := QuestionEntries([r]);
    assert es[0] == QuestionEntry(r);
    assert ListOf(es, 1, m) == ListOf(es, 0, m) + (if es[0].Filed? && es[0].mode == m then [es[0].item] else []);
  }

  /** Every question of mode `m` comes from a row that passes the guard and has that stripped mode. */
  lemma QuestionsForSound(body: seq<Row>, m: string)
    ensures forall q :: q in QuestionsFor(body, m) ==>
      exists i :: 0 <= i < |body| && KeptQuestionRow(body[i]) && Strip(body[i][0]) == m && RowQuestion(body[i]) == q
  {
    var es := QuestionEntries(body);
    ListOfSound(es, |body|, m);
    forall q | q in ListOf(es, |body|, m)
      ensures exists i :: 0 <= i < |body| && KeptQuestionRow(body[i]) && Strip(body[i][0]) == m && RowQuestion(body[i]) == q
    {
      var i :| 0 <= i < |body| && es[i] == Filed(m, q);
      assert es[i] == QuestionEntry(body[i]);
    }
  }

  /** Every row that passes the guard has its question in the list of its stripped mode. */
  lemma QuestionsForComplete(body: seq<Row>, i: nat)
    requires i < |body| && KeptQuestionRow(body[i])
    ensures RowQuestion(body[i]) in QuestionsFor(body, Strip(body[i][0]))
  {
    var m := Strip(body[i][0]);
    assert body == body[..i] + [body[i]] + body[i + 1..];
    QuestionsForAppend(body[..i] + [body[i]], body[i + 1..], m);
    QuestionsForAppend(body[..i], [body[i]], m);
    QuestionsForRow(body[i], m);
  }

  /**
   * A row whose first cell is only whitespace passes the guard and files its
   * question under the empty mode.
   */
  lemma BlankModeRow(r: Row)
    requires |r| >= 4 && r[0] != []
    requires forall k :: 0 <= k < |r[0]| ==> IsSpace(r[0][k])
    ensures KeptQuestionRow(r) && Strip(r[0]) == []
    ensures QuestionsFor([r], []) == [RowQuestion(r)]
  {
    assert LeadSpaces(r[0]) == |r[0]|;
    QuestionsForRow(r, []);
  }

  /** `surveys` holds exactly the non-empty lists the first `n` entries give. */
  ghost predicate Grouped<T>(surveys: map<string, seq<T>>, es: seq<Entry<T>>, n: nat)
    requires n <= |es|
  {
    && (forall m :: m in surveys <==> ListOf(es, n, m) != [])
    && (forall m :: m in surveys ==> surveys[m] == ListOf(es, n, m))
  }

  /** A skipped entry leaves the grouping as it is. */
  lemma GroupedSkip<T>(surveys: map<string, seq<T>>, es: seq<Entry<T>>, i: nat)
    requires i < |es| && Grouped(surveys, es, i) && es[i].Skipped?
    ensures Grouped(surveys, es, i + 1)
  {
    forall m ensures ListOf(es, i + 1, m) == ListOf(es, i, m) {
      assert ListOf(es, i + 1, m) == ListOf(es, i, m) + [];
    }
  }

  /** Appending a filed item to its mode's list, created if missing, groups one more entry. */
  lemma GroupedAppend<T>(surveys: map<string, seq<T>>, es: seq<Entry<T>>, i: nat)
    requires i < |es| && Grouped(surveys, es, i) && es[i].Filed?
    ensures var mode := es[i].mode;
      var listed := if mode in surveys then surveys else surveys[mode := []];
      Grouped(listed[mode := listed[mode] + [es[i].item]], es, i + 1)
  {
    var mode := es[i].mode;
    var listed := if mode in surveys then surveys else surveys[mode := []];
    var after := listed[mode := listed[mode] + [es[i].item]];
    forall m ensures (m in after <==> ListOf(es, i + 1, m) != []) && (m in after ==> after[m] == ListOf(es, i + 1, m)) {
      if m == mode {
        assert ListOf(es, i + 1, m) == ListOf(es, i, m) + [es[i].item];
        assert listed[mode] == ListOf(es, i, m);
      } else {
        assert ListOf(es, i + 1, m) == ListOf(es, i, m) + [];
      }
    }
  }

  /**
   * The questions loop of `fetch_all_data`: for every row after the header
   * that passes the guard, its question is appended to its mode's list, a
   * mode's list being created on its first row.
   */
  method ParseQuestionRows(rows: seq<Row>) returns (surveys: map<string, seq<Question>>)
    ensures forall m :: m in surveys <==> QuestionsFor(Body(rows), m) != []
    ensures forall m :: m in surveys ==> surveys[m] == QuestionsFor(Body(rows), m)
  {
    surveys := map[];
    if rows == [] {
      return;
    }
    var body := rows[1..];
    ghost var es := QuestionEntries(body);
    var i := 0;
    while i < |body|
      invariant 0 <= i <= |body|
      invariant Grouped(surveys, es, i)
    {
      var r := body[i];
      assert es[i] == QuestionEntry(r);
      if |r| < 4 || r[0] == [] {
        GroupedSkip(surveys, es, i);
        i := i + 1;
        continue;
      }
      GroupedAppend(surveys, es, i);
      var mode := Strip(r[0]);
      var q := Question(Strip(r[1]), Strip(r[2]), Strip(r[3]), Options(r));
      if mode !in surveys {
        surveys := surveys[mode := []];
      }
      surveys := surveys[mode := surveys[mode] + [q]];
      i := i + 1;
    }
  }

  // ---- Prompts ----

  /** The guard of line 51: a prompt row needs two cells and a non-empty first one. */
  predicate KeptPromptRow(r: Row)
  {
    |r| >= 2 && r[0] != []
  }

  /** A prompt row is filed under its stripped first cell with its stripped second cell, if it passes the guard. */
  function PromptEntry(r: Row): Entry<string>
  {
    if KeptPromptRow(r) then Filed(Strip(r[0]), Strip(r[1])) else Skipped
  }

  /** The entries of the prompt rows, one per row. */
  function PromptEntries(body: seq<Row>): seq<Entry<string>>
  {
    MapRows(PromptEntry, body)
  }

  /** The prompt all rows leave for mode `m`: that of its last kept row. */
  function PromptFor(body: seq<Row>, m: string): Option<string>
  {
    LastOf(PromptEntries(body), |body|, m)
  }

  /**
   * A mode has a prompt exactly when some row passes the guard with that
   * stripped mode; the prompt is the stripped text of the last such row, so
   * a later row of the same mode overwrites an earlier one.
   */
  lemma PromptForMeaning(body: seq<Row>, m: string)
    ensures PromptFor(body, m).None? <==>
      forall i :: 0 <= i < |body| ==> !(KeptPromptRow(body[i]) && Strip(body[i][0]) == m)
    ensures PromptFor(body, m).Some? ==>
      exists i :: && 0 <= i < |body| && KeptPromptRow(body[i]) && Strip(body[i][0]) == m
                  && PromptFor(body, m).value == Strip(body[i][1])
                  && forall j :: i < j < |body| ==> !(KeptPromptRow(body[j]) && Strip(body[j][0]) == m)
  {
    var es := PromptEntries(body);
    LastOfMeaning(es, |body|, m);
    var p := LastOf(es, |body|, m);
    if p.Some? {
      var i :| && 0 <= i < |body| && es[i] == Filed(m, p.value)
               && forall j :: i < j < |body| ==> !(es[j].Filed? && es[j].mode == m);
      assert es[i] == PromptEntry(body[i]);
      forall j | i < j < |body| ensures !(KeptPromptRow(body[j]) && Strip(body[j][0]) == m) {
        assert es[j] == PromptEntry(body[j]);
      }
    } else {
      forall i | 0 <= i < |body| ensures !(KeptPromptRow(body[i]) && Strip(body[i][0]) == m) {
        assert es[i] == PromptEntry(body[i]);
      }
    }
  }

  /** One more entry sets the last item of its own mode and leaves every other mode's as it was. */
  lemma LastOfStep<T>(es: seq<Entry<T>>, i: nat)
    requires i < |es|
    ensures es[i].Filed? ==> LastOf(es, i + 1, es[i].mode) == Some(es[i].item)
    ensures forall m :: !(es[i].Filed? && es[i].mode == m) ==> LastOf(es, i + 1, m) == LastOf(es, i, m)
  {
  }

  /**
   * The prompts loop of `fetch_all_data`: no worksheet gives no prompts;
   * otherwise every row after the header that passes the guard sets its
   * mode's prompt, overwriting an earlier one.
   */
  method ParsePromptRows(sheet: Option<seq<Row>>) returns (prompts: map<string, string>)
    ensures sheet.None? ==> prompts == map[]
    ensures sheet.Some? ==> forall m :: m in prompts <==> PromptFor(Body(sheet.value), m).Some?
    ensures sheet.Some? ==> forall m :: m in prompts ==> prompts[m] == PromptFor(Body(sheet.value), m).value
  {
    prompts := map[];
    if sheet.None? || sheet.value == [] {
      return;
    }
    var body := sheet.value[1..];
    ghost var es := PromptEntries(body);
    var i := 0;
    while i < |body|
      invariant 0 <= i <= |body|
      invariant forall m :: m in prompts <==> LastOf(es, i, m).Some?
      invariant forall m :: m in prompts ==> prompts[m] == LastOf(es, i, m).value
    {
      var r := body[i];
      assert es[i] == PromptEntry(r);
      LastOfStep(es, i);
      if |r| < 2 || r[0] == [] {
        i := i + 1;
        continue;
      }
      prompts := prompts[Strip(r[0]) := Strip(r[1])];
      i := i + 1;
    }
  }
}
