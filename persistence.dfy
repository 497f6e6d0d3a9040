/**
 * `dump_object`: append an object to the pickled list stored in a file,
 * creating the list when the file does not exist yet. A file is modelled as
 * the list it holds.
 */
module Persistence {

  /** The list file `filename` holds once `obj` has been dumped into it. */
  function Dumped<T>(files: map<string, seq<T>>, filename: string, obj: T): (after: map<string, seq<T>>)
    ensures filename in after && |after[filename]| >= 1 && after[filename][|after[filename]| - 1] == obj
    ensures after[filename][..|after[filename]| - 1] == if filename in files then files[filename] else []
    ensures forall other :: other != filename ==> (other in after <==> other in files)
    ensures forall other :: other != filename && other in files ==> after[other] == files[other]
  {
    files[filename := if filename in files then files[filename] + [obj] else [obj]]
  }

  /** Dumping several objects one after another into the same file. */
  function DumpAll<T>(files: map<string, seq<T>>, filename: string, objs: seq<T>): map<string, seq<T>>
    decreases |objs|
  {
    if objs == [] then files
    else DumpAll(Dumped(files, filename, objs[0]), filename, objs[1..])
  }

  /** What `filename` holds, the empty list when it does not exist. */
  function Held<T>(files: map<string, seq<T>>, filename: string): seq<T>
  {
    if filename in files then files[filename] else []
  }

  /** Successive dumps keep every object in the order it was dumped, after
      whatever the file already held. */
  lemma {:induction false} DumpAllAppends<T>(files: map<string, seq<T>>, filename: string, objs: seq<T>)
    requires filename in files || objs != []
    ensures filename in DumpAll(files, filename, objs)
    ensures DumpAll(files, filename, objs)[filename] == Held(files, filename) + objs
    decreases |objs|
  {
    if objs != [] {
      var next := Dumped(files, filename, objs[0]);
      DumpAllAppends(next, filename, objs[1..]);
      assert Held(next, filename) == Held(files, filename) + [objs[0]];
      assert [objs[0]] + objs[1..] == objs;
    }
  }

  /** Successive dumps into one file leave every other file as it was. */
  lemma {:induction false} DumpAllOthers<T>(files: map<string, seq<T>>, filename: string, objs: seq<T>, other: string)
    requires other != filename
    ensures other in DumpAll(files, filename, objs) <==> other in files
    ensures other in files ==> DumpAll(files, filename, objs)[other] == files[other]
    decreases |objs|
  {
    if objs != [] {
      DumpAllOthers(Dumped(files, filename, objs[0]), filename, objs[1..], other);
    }
  }

  /** The pickle files `dump_object` reads and writes. */
  class ObjectFiles<T> {
    var files: map<string, seq<T>>

    constructor (files: map<string, seq<T>>)
      ensures this.files == files
    {
      this.files := files;
    }

    /** `dump_object(obj, filename)` */
    method DumpObject(obj: T, filename: string)
      modifies this
      ensures files == Dumped(old(files), filename, obj)
    {
      var data: seq<T>;
      if filename in files {
        data := files[filename] + [obj];
      } else {
        data := [obj];
      }
      files := files[filename := data];
    }
  }
}
