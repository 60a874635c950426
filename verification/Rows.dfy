/**
 A Parquet file is a schema plus a sequence of rows. `Count` is the number of copies of one
 row in a group of named files; the conservation claims about the pipeline compare such
 counts for every row.
 */
module Rows {

  datatype Cell = Null | Int(number: int) | Text(text: string) | Flag(flag: bool)

  type Row = seq<Cell>

  datatype File = File(schema: seq<string>, rows: seq<Row>, bytes: nat)

  /** The number of copies of `row` in `rows`. */
  function Copies(rows: seq<Row>, row: Row): nat {
    multiset(rows)[row]
  }

  ghost function Count(files: map<string, File>, row: Row): nat
    decreases |files|
  {
    if files == map[] then 0
    else
      var name :| name in files;
      Copies(files[name].rows, row) + Count(files - {name}, row)
  }

  /** The files whose name is in `names`. */
  function Only(files: map<string, File>, names: set<string>): map<string, File> {
    map name | name in files && name in names :: files[name]
  }

  lemma {:induction false} CountRemove(files: map<string, File>, name: string, row: Row)
    requires name in files
    ensures Count(files, row) == Copies(files[name].rows, row) + Count(files - {name}, row)
    decreases |files|
  {
    var first :| first in files
      && Count(files, row) == Copies(files[first].rows, row) + Count(files - {first}, row);
    if first != name {
      CountRemove(files - {first}, name, row);
      CountRemove(files - {name}, first, row);
      assert files - {first} - {name} == files - {name} - {first};
    }
  }

  lemma CountInsert(files: map<string, File>, name: string, file: File, row: Row)
    requires name !in files
    ensures Count(files[name := file], row) == Count(files, row) + Copies(file.rows, row)
  {
    CountRemove(files[name := file], name, row);
    assert files[name := file] - {name} == files;
  }

  /** Splitting a group of files in two splits its rows in two. */
  lemma {:induction false} CountSplit(files: map<string, File>, names: set<string>, row: Row)
    ensures Count(files, row) == Count(Only(files, names), row) + Count(files - names, row)
    decreases |files|
  {
    if files == map[] {
      assert Only(files, names) == map[] && files - names == map[];
    } else {
      var name :| name in files;
      var rest := files - {name};
      CountSplit(rest, names, row);
      CountRemove(files, name, row);
      if name in names {
        CountInsert(Only(rest, names), name, files[name], row);
        assert Only(rest, names)[name := files[name]] == Only(files, names);
        assert rest - names == files - names;
      } else {
        CountInsert(rest - names, name, files[name], row);
        assert (rest - names)[name := files[name]] == files - names;
        assert Only(rest, names) == Only(files, names);
      }
    }
  }

  /** Disjoint names contribute separately. */
  lemma CountUnion(files: map<string, File>, left: set<string>, right: set<string>, row: Row)
    requires left !! right
    ensures Count(Only(files, left + right), row) == Count(Only(files, left), row) + Count(Only(files, right), row)
  {
    var both := Only(files, left + right);
    CountSplit(both, left, row);
    assert Only(both, left) == Only(files, left);
    assert both - left == Only(files, right);
  }

  /** One more file. */
  lemma CountStep(files: map<string, File>, names: set<string>, name: string, row: Row)
    requires name in files && name !in names
    ensures Count(Only(files, names + {name}), row) == Count(Only(files, names), row) + Copies(files[name].rows, row)
  {
    CountInsert(Only(files, names), name, files[name], row);
    assert Only(files, names)[name := files[name]] == Only(files, names + {name});
  }

  /** A row occurs in a group exactly when it occurs in one of its files. */
  lemma {:induction false} CountPositive(files: map<string, File>, row: Row)
    ensures Count(files, row) > 0 <==> exists name :: name in files && row in files[name].rows
    decreases |files|
  {
    if files != map[] {
      var name :| name in files;
      CountRemove(files, name, row);
      CountPositive(files - {name}, row);
      assert row in files[name].rows <==> row in multiset(files[name].rows);
      if other :| other in files && row in files[other].rows {
        assert other == name || other in files - {name};
      }
    }
  }
}
