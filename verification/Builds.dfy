/**
 * Whole runs of an image builder: any sequence of mkdir and add_file calls that succeed
 * (tools/make_fat.py:314-367, tools/make_floppy.py:268-317). What could be read before a call can be
 * read after it, so at the end every file is there with its own bytes.
 */
module Builds {
  import opened Options
  import opened Bytes
  import opened Names
  import opened Chains
  import opened Dirs
  import opened Trees
  import opened Wellformed
  import opened Ops
  import opened Paths
  import opened LongNames
  import opened ImageNames
  import opened Runs
  import opened Blobs

  /** A call. */
  datatype Op = AddFile(parts: seq<Name>, name: Name, bytes: seq<byte>) | Mkdir(parts: seq<Name>, name: Name)

  /** A call that leaves the volume well formed if it succeeds: see the builders' AddFile and Mkdir. */
  predicate Sane(op: Op) { !DotName(NoSpaces(op.name)) && Legible(op.name) }

  /** What a call did: the directory it wrote to, the records, and the first cluster; or that the name was there. */
  datatype Deed = Deed(op: Op, dir: nat, recs: seq<Entry>, first: nat, there: bool)

  /** The clusters a call took for its bytes or its new directory. */
  function Took(d: Deed, cb: nat): nat
    requires cb > 0
  {
    match d.op
    case AddFile(parts, name, bytes) => NumClus(|bytes|, cb)
    case Mkdir(parts, name) => if d.there then 0 else 1
  }

  function TookAll(deeds: seq<Deed>, cb: nat): nat
    requires cb > 0
  {
    if deeds == [] then 0 else TookAll(deeds[..|deeds| - 1], cb) + Took(deeds[|deeds| - 1], cb)
  }

  lemma TookMore(deeds: seq<Deed>, d: Deed, cb: nat)
    requires cb > 0
    ensures TookAll(deeds + [d], cb) == TookAll(deeds, cb) + Took(d, cb)
  {
    assert (deeds + [d])[..|deeds|] == deeds;
  }

  ghost predicate Did(v: Vol, z: Vol, limit: nat, root: nat, per: nat, bad: nat, d: Deed) {
    && Sound(v, limit, root, per) && PerOk(per) && NeatTree(TreeOf(v, per), bad)
    && match d.op
       case AddFile(parts, name, bytes) =>
         Led(v, root, per, parts) == Some(d.dir) && Filed(v, z, limit, root, per, d.dir, d.recs, d.first, name, bytes)
       case Mkdir(parts, name) =>
         if d.there then z == v && Occupied(v, root, per, parts, name)
         else
           && Led(v, root, per, parts) == Some(d.dir) && !Occupied(v, root, per, parts, name)
           && Made(v, z, limit, root, per, d.dir, d.recs, d.first, name)
  }

  /** Volume after volume, each made from the one before by a call. */
  ghost predicate Run(vs: seq<Vol>, deeds: seq<Deed>, limit: nat, root: nat, per: nat, bad: nat) {
    && |vs| == |deeds| + 1 && (forall i :: 0 <= i < |vs| ==> Fine(vs[i], limit, per))
    && forall i :: 0 <= i < |deeds| ==> Did(vs[i], vs[i+1], limit, root, per, bad, deeds[i])
  }

  lemma SomeFile(v: Vol, limit: nat, root: nat, per: nat, q: seq<Name>)
    requires Fine(v, limit, per) && FileAt(v, limit, root, per, q).Some?
    ensures Locate(TreeOf(v, per), root, q) != Nowhere
  {
    hide ChainsOk, Locate, Contents, InfoAt, AllSlots;
  }

  /** A new file hides no other. */
  lemma FiledKeeps(v: Vol, z: Vol, limit: nat, root: nat, per: nat, dir: nat, recs: seq<Entry>, first: nat, name: Name,
                   bytes: seq<byte>, q: seq<Name>)
    requires Filed(v, z, limit, root, per, dir, recs, first, name, bytes) && Plain(q)
        && FileAt(v, limit, root, per, q).Some?
    ensures FileAt(z, limit, root, per, q) == FileAt(v, limit, root, per, q)
  {
    hide ChainsOk, DirSlots, AllSlots, Fits, DataShape, RecordsOf, FreeAt, Locate, FileAt, Kept, RunName, Parent, Lies;
    SomeFile(v, limit, root, per, q);
  }

  /** Nor does a new directory. */
  lemma MadeKeeps(v: Vol, z: Vol, limit: nat, root: nat, per: nat, dir: nat, recs: seq<Entry>, c: nat, name: Name,
                  q: seq<Name>)
    requires Made(v, z, limit, root, per, dir, recs, c, name) && Plain(q) && FileAt(v, limit, root, per, q).Some?
    ensures FileAt(z, limit, root, per, q) == FileAt(v, limit, root, per, q)
  {
    hide ChainsOk, DirSlots, AllSlots, Fits, DataShape, RecordsOf, FreeAt, Locate, FileAt, Kept, RunName, Parent,
         SpotIn, Enter, Lies, Vacant;
    SomeFile(v, limit, root, per, q);
  }

  /** One call hides no file. */
  lemma DidKeeps(v: Vol, z: Vol, limit: nat, root: nat, per: nat, bad: nat, d: Deed, q: seq<Name>)
    requires Did(v, z, limit, root, per, bad, d) && Fine(z, limit, per) && Plain(q)
        && FileAt(v, limit, root, per, q).Some?
    ensures FileAt(z, limit, root, per, q) == FileAt(v, limit, root, per, q)
  {
    hide Fine, TreeOk, NeatTree, FileAt, Filed, Made, Trail;
    match d.op
    case AddFile(parts, name, bytes) => FiledKeeps(v, z, limit, root, per, d.dir, d.recs, d.first, name, bytes, q);
    case Mkdir(parts, name) => if !d.there { MadeKeeps(v, z, limit, root, per, d.dir, d.recs, d.first, name, q); }
  }

  /** What can be read at some point of a run can be read ever after. */
  lemma {:induction false} RunKeeps(vs: seq<Vol>, deeds: seq<Deed>, limit: nat, root: nat, per: nat, bad: nat, i: nat,
                                    j: nat, q: seq<Name>)
    requires Run(vs, deeds, limit, root, per, bad) && i <= j < |vs| && Plain(q)
        && FileAt(vs[i], limit, root, per, q).Some?
    ensures FileAt(vs[j], limit, root, per, q) == FileAt(vs[i], limit, root, per, q)
    decreases j
  {
    hide Did, Fine, FileAt;
    if i < j {
      RunKeeps(vs, deeds, limit, root, per, bad, i, j - 1, q);
      DidKeeps(vs[j-1], vs[j], limit, root, per, bad, deeds[j-1], q);
    }
  }

  /**
   * When the path a file is asked for leads to it: its directories have short names of their own,
   * nothing answers to it yet, and its name survives (see AnswersToItself).
   */
  ghost predicate Distinct83(v: Vol, root: nat, per: nat, parts: seq<Name>, name: Name) {
    && Fits(v.data, v.L, per) && Plain(parts + [name]) && Unambiguous(TreeOf(v, per), root, root, parts)
    && Locate(TreeOf(v, per), root, parts + [name]) == Nowhere
    && Survives(name)
  }

  /** Such a file is read by its path once it is added. */
  lemma DidReads(v: Vol, z: Vol, limit: nat, root: nat, per: nat, bad: nat, d: Deed)
    requires Did(v, z, limit, root, per, bad, d) && Fine(z, limit, per) && d.op.AddFile?
        && Distinct83(v, root, per, d.op.parts, d.op.name)
    ensures FileAt(z, limit, root, per, d.op.parts + [d.op.name]) == Some(d.op.bytes)
  {
    hide Fine, TreeOk, Fits, NeatTree, FileAt, Filed, Trail, Unambiguous, NeedsLfn, Fits83, Locate, TreeOf, Walk;
    var q, S := d.op.parts + [d.op.name], TreeOf(v, per);
    TrailIsWalk(S, root, root, d.op.parts);
    FiledOwn(v, limit, root, per, bad, d.dir, d.recs, d.first, d.op.name, d.op.bytes, z);
    assert q[..|q|-1] == d.op.parts;
    FiledReads(v, z, limit, root, per, d.dir, d.recs, d.first, d.op.name, d.op.bytes, q);
  }

  lemma RecordsSome(recs: seq<Entry>, name: Name, attr: byte, clus: nat, size: nat)
    requires clus < 0x1_0000_0000 && size < 0x1_0000_0000 && RecordsOf(recs, name, attr, clus, size)
    ensures recs != []
  {
    hide ShortEntry, NeedsLfn, Fragments;
  }

  lemma OpenStarts(slots: Slots, s: nat)
    requires OpenAt(slots, s)
    ensures s <= |slots|
  {
  }

  /** The name leads to the new record. */
  lemma OwnName(s: Slots, recs: seq<Entry>, first: nat, name: Name, size: nat)
    requires Neat(s) && Tidy(s) && first < 0x1_0000_0000 && size < 0x1_0000_0000
        && RecordsOf(recs, name, ATTR_ARC, first, size)
    requires Survives(name)
    ensures recs != [] && FreeAt(s) <= |s| && RunName(s, FreeAt(s), recs, name)
  {
    hide NeedsLfn, Fits83, RecordsOf, Neat, IsLfn, RunName, OpenAt, FreeAt;
    NeatOpen(s);
    OpenStarts(s, FreeAt(s));
    RecordsSome(recs, name, ATTR_ARC, first, size);
    SurvivesLegible(name);
    AnswersToItself(s, FreeAt(s), recs, name, ATTR_ARC, first, size);
  }

  lemma DirIsNeat(v: Vol, limit: nat, root: nat, per: nat, bad: nat, dir: nat)
    requires Sound(v, limit, root, per) && NeatTree(TreeOf(v, per), bad) && dir in v.L.depth
    ensures dir in TreeOf(v, per) && Neat(TreeOf(v, per)[dir]) && Tidy(TreeOf(v, per)[dir])
  {
    hide ChainsOk, TreeOk, DirSlots, DataShape, Neat, Shuns;
    TreeFacts(v, limit, root, per);
  }

  lemma FiledOwn(v: Vol, limit: nat, root: nat, per: nat, bad: nat, dir: nat, recs: seq<Entry>, first: nat, name: Name,
                 bytes: seq<byte>, z: Vol)
    requires Sound(v, limit, root, per) && NeatTree(TreeOf(v, per), bad)
        && Filed(v, z, limit, root, per, dir, recs, first, name, bytes)
    requires Survives(name)
    ensures dir in TreeOf(v, per) && recs != [] && FreeAt(TreeOf(v, per)[dir]) <= |TreeOf(v, per)[dir]|
    ensures RunName(TreeOf(v, per)[dir], FreeAt(TreeOf(v, per)[dir]), recs, name)
  {
    hide ChainsOk, DataShape, Fits, TreeOk, NeatTree, NeedsLfn, Fits83, RecordsOf, Neat, Tidy, RunName, FileAdded, Lies,
         Vacant, FreeAt, TreeOf, Kept;
    DirIsNeat(v, limit, root, per, bad, dir);
    OwnName(TreeOf(v, per)[dir], recs, first, name, |bytes|);
  }

  lemma FiledReads(v: Vol, z: Vol, limit: nat, root: nat, per: nat, dir: nat, recs: seq<Entry>, first: nat, name: Name,
                   bytes: seq<byte>, q: seq<Name>)
    requires Filed(v, z, limit, root, per, dir, recs, first, name, bytes) && Plain(q) && q != []
        && Parent(TreeOf(v, per), root, q) == Some(dir)
    requires Locate(TreeOf(v, per), root, q) == Nowhere && dir in TreeOf(v, per) && recs != []
    requires var s := TreeOf(v, per)[dir]; FreeAt(s) <= |s| && RunName(s, FreeAt(s), recs, Last(q))
    ensures FileAt(z, limit, root, per, q) == Some(bytes)
  {
    hide ChainsOk, DirSlots, Fits, DataShape, RecordsOf, FreeAt, Locate, FileAt, Kept, RunName, Parent, Lies;
  }

  /** At the end of a run every such file is read by its path, with its own bytes. */
  lemma RunReads(vs: seq<Vol>, deeds: seq<Deed>, limit: nat, root: nat, per: nat, bad: nat, i: nat)
    requires Run(vs, deeds, limit, root, per, bad) && i < |deeds| && deeds[i].op.AddFile?
    requires Distinct83(vs[i], root, per, deeds[i].op.parts, deeds[i].op.name)
    ensures FileAt(vs[|deeds|], limit, root, per, deeds[i].op.parts + [deeds[i].op.name]) == Some(deeds[i].op.bytes)
  {
    hide Did, Fine, FileAt, Fits, Unambiguous, Locate, Survives;
    DidReads(vs[i], vs[i+1], limit, root, per, bad, deeds[i]);
    RunKeeps(vs, deeds, limit, root, per, bad, i + 1, |deeds|, deeds[i].op.parts + [deeds[i].op.name]);
  }

  /** One more call. */
  lemma RunMore(vs: seq<Vol>, deeds: seq<Deed>, limit: nat, root: nat, per: nat, bad: nat, z: Vol, d: Deed)
    requires Run(vs, deeds, limit, root, per, bad) && Fine(z, limit, per)
        && Did(vs[|deeds|], z, limit, root, per, bad, d)
    ensures Run(vs + [z], deeds + [d], limit, root, per, bad)
  {
    hide Did, Fine;
    var ws, ds := vs + [z], deeds + [d];
    forall i | 0 <= i < |ds| ensures Did(ws[i], ws[i+1], limit, root, per, bad, ds[i]) {
      if i < |deeds| { assert Did(vs[i], vs[i+1], limit, root, per, bad, deeds[i]); }
    }
  }
}
