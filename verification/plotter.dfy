/**
 * The plot writer (mom/Plotter.py).  A plotter appends to
 * `<plot dir>/<name>.dat` a header naming the fields in sorted order, then
 * one tab-separated line per sample.  The file is modelled by the lines
 * written to it; whether it could be opened, and the clock reading each
 * line starts with, are inputs.
 */
module Plotters {
  import opened Wrappers
  import opened Strings
  import opened Monitoring

  /** The file a plotter appends to. */
  function FileName(plotDir: string, name: string): string {
    plotDir + "/" + name + ".dat"
  }

  /** The header line `setFields` writes. */
  function Header(keys: seq<string>): (r: string)
    ensures |r| >= 9 && r[..8] == "# time\t " && r[|r| - 1] == '\n'
    ensures r[8..|r| - 1] == Join(keys, "\t ")
  {
    "# time\t " + Join(keys, "\t ") + "\n"
  }

  /** The sample holds every plotted field. */
  predicate Complete(keys: seq<string>, data: Sample) {
    forall i :: 0 <= i < |keys| ==> keys[i] in data
  }

  /** The plotted fields' values, in the order of `keys`, as `str` spells them. */
  function Values(keys: seq<string>, data: Sample): (r: seq<string>)
    requires Complete(keys, data)
    ensures |r| == |keys|
    ensures forall i :: 0 <= i < |keys| ==> r[i] == IntToString(data[keys[i]])
    decreases |keys|
  {
    if |keys| == 0 then [] else [IntToString(data[keys[0]])] + Values(keys[1..], data)
  }

  /** A data line without its newline: the time, then each value, separated by tabs. */
  function Row(time: string, keys: seq<string>, data: Sample): string
    requires Complete(keys, data)
  {
    time + "\t" + Join(Values(keys, data), "\t")
  }

  /** The line `plot` writes: the row, or a comment when a field is missing (the `KeyError`). */
  function Line(time: string, keys: seq<string>, data: Sample): (r: string)
    ensures |r| > |time| && r[|r| - 1] == '\n'
    ensures Complete(keys, data) ==> r[..|time| + 1] == time + "\t"
    ensures !Complete(keys, data) ==> |r| == |time| + 23 && r[..2] == "# " && r[|r| - 21..] == " Incomplete data set\n"
  {
    if Complete(keys, data) then Row(time, keys, data) + "\n"
    else "# " + time + " Incomplete data set\n"
  }

  class Plotter {
    /** The open plot file, None when there is none. */
    const file: Option<string>
    /** The sorted fields, None until `setFields` runs. */
    var keys: Option<seq<string>>
    /** Every line written to the file, in order. */
    var written: seq<string>

    /** No plot directory means no file; a file that cannot be opened is only warned about. */
    constructor (plotDir: string, name: string, opens: bool)
      ensures file == (if plotDir != "" && opens then Some(FileName(plotDir, name)) else None)
      ensures keys.None? && written == []
    {
      if plotDir != "" && opens {
        file := Some(FileName(plotDir, name));
      } else {
        file := None;
      }
      keys := None;
      written := [];
    }

    /** `setFields`: sorts the fields and writes the header naming them. */
    method SetFields(fields: set<string>)
      modifies this
      ensures file.None? ==> unchanged(this)
      ensures file.Some? ==>
        keys.Some? && SortedStrict(keys.value) && Elems(keys.value) == fields &&
        written == old(written) + [Header(keys.value)]
    {
      if file.None? {
        return;
      }
      var sorted := SortFields(fields);
      keys := Some(sorted);
      written := written + [Header(sorted)];
    }

    /**
     * `plot`: one line per sample.  Before `setFields` there are no keys
     * and the attribute lookup raises (`raised`).
     */
    method Plot(time: string, data: Sample) returns (raised: bool)
      modifies this
      ensures file.None? ==> !raised && unchanged(this)
      ensures file.Some? && keys.None? ==> raised && unchanged(this)
      ensures file.Some? && keys.Some? ==>
        !raised && keys == old(keys) && written == old(written) + [Line(time, keys.value, data)]
    {
      if file.None? {
        return false;
      }
      if keys.None? {
        return true;
      }
      written := written + [Line(time, keys.value, data)];
      raised := false;
    }
  }

  /** `list(fields)` then `sort()`: every field once, in ascending order. */
  method SortFields(fields: set<string>) returns (sorted: seq<string>)
    ensures SortedStrict(sorted) && Elems(sorted) == fields
  {
    sorted := [];
    var todo := fields;
    while todo != {}
      invariant todo <= fields
      invariant SortedStrict(sorted) && Elems(sorted) == fields - todo
      decreases todo
    {
      var field :| field in todo;
      sorted := InsertSorted(sorted, field);
      todo := todo - {field};
    }
  }

  // ---------------------------------------------------------------------
  // properties

  /** The header's order depends only on the set of fields. */
  lemma KeysDetermined(a: seq<string>, b: seq<string>)
    requires SortedStrict(a) && SortedStrict(b) && Elems(a) == Elems(b)
    ensures Header(a) == Header(b)
  {
    SortedUnique(a, b);
  }

  /** A number as `str` spells it holds no tab. */
  lemma NoTabInNumber(n: int)
    ensures '\t' !in IntToString(n)
  {
    var s := IntToString(n);
    if n >= 0 {
      assert forall i :: 0 <= i < |s| ==> IsDigit(s[i]);
    } else {
      var digits := NatToString(-n);
      assert s == "-" + digits;
      assert forall i :: 0 <= i < |digits| ==> IsDigit(digits[i]);
    }
  }

  /**
   * A data row reads back: split on tabs it gives the time, then one
   * column per field, each parsing to that field's value.
   */
  lemma RowRoundTrip(time: string, keys: seq<string>, data: Sample)
    requires Complete(keys, data) && |keys| > 0 && '\t' !in time
    ensures var cols := Split(Row(time, keys, data), '\t');
      |cols| == |keys| + 1 && cols[0] == time &&
      forall i :: 0 <= i < |keys| ==> ParseInt(cols[i + 1]) == Some(data[keys[i]])
  {
    var vals := Values(keys, data);
    forall i | 0 <= i < |vals| ensures '\t' !in vals[i] {
      NoTabInNumber(data[keys[i]]);
    }
    SplitJoin(vals, '\t');
    SplitPrefix(time, Join(vals, "\t"), '\t');
    assert Row(time, keys, data) == time + ['\t'] + Join(vals, ['\t']);
    forall i | 0 <= i < |keys| ensures ParseInt(vals[i]) == Some(data[keys[i]]) {
      ParseIntToString(data[keys[i]]);
    }
  }

  /** Fields the plotter does not plot have no effect on the line written. */
  lemma {:induction false} ExtraFieldsIgnored(time: string, keys: seq<string>, data: Sample, more: Sample)
    requires forall i :: 0 <= i < |keys| ==> (keys[i] in data <==> keys[i] in more)
    requires forall i :: 0 <= i < |keys| && keys[i] in data ==> data[keys[i]] == more[keys[i]]
    ensures Line(time, keys, data) == Line(time, keys, more)
  {
    if Complete(keys, data) {
      assert Values(keys, data) == Values(keys, more);
    }
  }

  /** A sample missing a plotted field writes the comment line, never a partial row. */
  lemma IncompleteIsComment(time: string, keys: seq<string>, data: Sample, i: nat)
    requires i < |keys| && keys[i] !in data
    ensures Line(time, keys, data) == "# " + time + " Incomplete data set\n"
  {
  }
}
