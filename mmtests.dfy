/** The generic MMTests benchmark test and its table of named variants.
    Every variant differs from the base only in four static fields, so a
    variant is one record built from a table row. */
module MMTests {
  import opened Tests
  import opened Wrappers

  /** The template every variant renders with. */
  const Template := "mmtests.yaml.jinja2"
  /** The devices the base class declares; no variant changes them. */
  const SupportedDevices := ["qemu-arm64", "qemu-x86_64"]
  /** The base class's defaults, which every variant overrides. */
  const DefaultConfigfile := ""
  const DefaultIterations := 0
  /** Every variant's name and configuration file share one suffix. */
  const NamePrefix := "mmtests-"
  const ConfigPrefix := "configs/config-"

  /** An MMTests test: the common descriptor fields plus the benchmark's
      configuration file and its iteration count. */
  datatype Variant = Variant(test: TestDesc, configfile: string, iterations: nat)

  /** One row of the variant table: the suffix shared by `name` and
      `configfile`, the iteration count and the timeout. */
  datatype Entry = Entry(suffix: string, iterations: nat, timeout: nat)

  function FromEntry(e: Entry): Variant {
    Variant(TestDesc(NamePrefix + e.suffix, SupportedDevices, e.timeout, true), ConfigPrefix + e.suffix, e.iterations)
  }

  /** The 37 variant classes, in the order the source declares them. */
  const Entries: seq<Entry> := [
      Entry("db-sqlite-insert-small", 10, 90),
      Entry("hpc-scimarkc-small", 20, 90),
      Entry("io-blogbench", 30, 90),
      Entry("io-fio-randread-async-randwrite", 10, 90),
      Entry("io-fio-randread-async-seqwrite", 10, 90),
      Entry("io-fio-randread-sync-heavywrite", 10, 90),
      Entry("io-fio-randread-sync-randwrite", 10, 90),
      Entry("io-fsmark-small-file-stream", 10, 90),
      Entry("memdb-redis-benchmark-small", 20, 90),
      Entry("memdb-redis-memtier-small", 20, 90),
      Entry("scheduler-schbench", 10, 90),
      Entry("scheduler-sysbench-cpu", 10, 90),
      Entry("scheduler-sysbench-thread", 10, 90),
      Entry("workload-aim9-disk", 10, 90),
      Entry("workload-coremark", 20, 90),
      Entry("workload-cyclictest-fine-hackbench", 15, 90),
      Entry("workload-cyclictest-hackbench", 20, 90),
      Entry("workload-ebizzy", 10, 90),
      Entry("workload-pmqtest-hackbench", 10, 90),
      Entry("workload-stressng-af-alg", 10, 90),
      Entry("workload-stressng-bad-altstack", 10, 90),
      Entry("workload-stressng-class-io-parallel", 10, 90),
      Entry("workload-stressng-context", 10, 90),
      Entry("workload-stressng-fork", 10, 90),
      Entry("workload-stressng-get", 10, 90),
      Entry("workload-stressng-getdent", 10, 90),
      Entry("workload-stressng-madvise", 10, 90),
      Entry("workload-stressng-mmap", 10, 90),
      Entry("workload-stressng-vm-splice", 10, 90),
      Entry("workload-stressng-zombie", 10, 90),
      Entry("workload-usemem", 10, 90),
      Entry("workload-will-it-scale-io-processes", 10, 90),
      Entry("workload-will-it-scale-io-threads", 10, 90),
      Entry("workload-will-it-scale-pf-processes", 10, 90),
      Entry("workload-will-it-scale-pf-threads", 10, 90),
      Entry("workload-will-it-scale-sys-processes", 10, 90),
      Entry("workload-will-it-scale-sys-threads", 10, 90)
    ]

  /** No two rows of the table share a suffix. The pairs are grouped by the
      range of the first row only to keep each proof obligation small. */
  lemma SuffixesDistinct()
    ensures forall i, j :: 0 <= i < j < |Entries| ==> Entries[i].suffix != Entries[j].suffix
  {
    forall i, j | 0 <= i < j < |Entries|
      ensures Entries[i].suffix != Entries[j].suffix
    {
      if i == 0 { SuffixesDistinctRow0(); }
      else if i == 1 { SuffixesDistinctRow1(); }
      else if i == 2 { SuffixesDistinctRow2(); }
      else if i == 3 { SuffixesDistinctRow3(); }
      else if i == 4 { SuffixesDistinctRow4(); }
      else if i == 5 { SuffixesDistinctRow5(); }
      else if i < 10 { SuffixesDistinctRows6To10(); }
      else if i < 15 { SuffixesDistinctRows10To15(); }
      else if i < 24 { SuffixesDistinctRows15To24(); }
      else { SuffixesDistinctRows24To37(); }
    }
  }

  lemma SuffixesDistinctRow0()
    ensures forall j :: 0 < j < |Entries| ==> Entries[0].suffix != Entries[j].suffix
  {
  }

  lemma SuffixesDistinctRow1()
    ensures forall j :: 1 < j < |Entries| ==> Entries[1].suffix != Entries[j].suffix
  {
  }

  lemma SuffixesDistinctRow2()
    ensures forall j :: 2 < j < |Entries| ==> Entries[2].suffix != Entries[j].suffix
  {
  }

  lemma SuffixesDistinctRow3()
    ensures forall j :: 3 < j < |Entries| ==> Entries[3].suffix != Entries[j].suffix
  {
  }

  lemma SuffixesDistinctRow4()
    ensures forall j :: 4 < j < |Entries| ==> Entries[4].suffix != Entries[j].suffix
  {
  }

  lemma SuffixesDistinctRow5()
    ensures forall j :: 5 < j < |Entries| ==> Entries[5].suffix != Entries[j].suffix
  {
  }

  lemma SuffixesDistinctRows6To10()
    ensures forall i, j :: 6 <= i < 10 && i < j < |Entries| ==> Entries[i].suffix != Entries[j].suffix
  {
  }

  lemma SuffixesDistinctRows10To15()
    ensures forall i, j :: 10 <= i < 15 && i < j < |Entries| ==> Entries[i].suffix != Entries[j].suffix
  {
  }

  lemma SuffixesDistinctRows15To24()
    ensures forall i, j :: 15 <= i < 24 && i < j < |Entries| ==> Entries[i].suffix != Entries[j].suffix
  {
  }

  lemma SuffixesDistinctRows24To37()
    ensures forall i, j :: 24 <= i < 37 && i < j < |Entries| ==> Entries[i].suffix != Entries[j].suffix
  {
  }

  /** Every row has timeout 90 and one of four iteration counts. */
  lemma EntriesBounded()
    ensures forall i | 0 <= i < |Entries| :: Entries[i].timeout == 90
    ensures forall i | 0 <= i < |Entries| :: Entries[i].iterations in {10, 15, 20, 30}
  {
  }

  /** Two names with the common prefix are equal only if their suffixes are. */
  lemma PrefixCancels(p: string, s: string, t: string)
    requires p + s == p + t
    ensures s == t
  {
    assert s == (p + s)[|p|..];
    assert t == (p + t)[|p|..];
  }

  /** The variant table, with its invariants: 37 variants, names pairwise
      distinct, every name and configuration file built from one suffix, the
      base's devices and test-definition need kept, timeout 90 and an
      iteration count out of {10, 15, 20, 30}. */
  function Variants(): (table: seq<Variant>)
    ensures |table| == 37
    ensures forall i, j :: 0 <= i < j < |table| ==> table[i].test.name != table[j].test.name
    ensures forall v | v in table ::
      && NamePrefix <= v.test.name
      && v.configfile == ConfigPrefix + v.test.name[|NamePrefix|..]
    ensures forall v | v in table ::
      && v.test.devices == SupportedDevices
      && v.test.needTestDefinition
      && v.test.timeout == 90
      && v.iterations in {10, 15, 20, 30}
  {
    var table := seq(|Entries|, i requires 0 <= i < |Entries| => FromEntry(Entries[i]));
    SuffixesDistinct();
    EntriesBounded();
    forall i, j | 0 <= i < j < |table|
      ensures table[i].test.name != table[j].test.name
    {
      if table[i].test.name == table[j].test.name {
        PrefixCancels(NamePrefix, Entries[i].suffix, Entries[j].suffix);
      }
    }
    forall v | v in table
      ensures NamePrefix <= v.test.name && v.configfile == ConfigPrefix + v.test.name[|NamePrefix|..]
    {
      var i :| 0 <= i < |table| && table[i] == v;
      assert v.test.name[|NamePrefix|..] == Entries[i].suffix;
    }
    table
  }

  /** Every variant overrides both base defaults; in particular its
      iteration count is positive. */
  lemma VariantsOverrideDefaults()
    ensures forall v | v in Variants() ::
      v.configfile != DefaultConfigfile && v.iterations > DefaultIterations
  {
  }

  /** A variant of `table` registered under `name`, if any. */
  function Find(table: seq<Variant>, name: string): (r: Option<Variant>)
    ensures r.Some? ==> r.value in table && r.value.test.name == name
    ensures r.None? <==> forall v | v in table :: v.test.name != name
  {
    if |table| == 0 then None
    else if table[0].test.name == name then Some(table[0])
    else Find(table[1..], name)
  }

  /** Lookup of an MMTests variant by its registry name. */
  function ByName(name: string): Option<Variant> {
    Find(Variants(), name)
  }

  /** Because the names are distinct, looking up a variant's own name yields
      that variant and no other: the name-keyed registry is injective. */
  lemma ByNameFindsEachVariant(i: nat)
    requires i < |Variants()|
    ensures ByName(Variants()[i].test.name) == Some(Variants()[i])
  {
    var table := Variants();
    var r := Find(table, table[i].test.name);
    assert table[i] in table;
    var k :| 0 <= k < |table| && table[k] == r.value;
    assert k == i;
  }

  /** The four keys `render` assigns, with the variant's own values. */
  function Fields(v: Variant): Bag {
    map["name" := Str(v.test.name), "configfile" := Str(v.configfile),
        "iterations" := Int(v.iterations), "timeout" := Int(v.test.timeout)]
  }

  /** `render`: assigns the four fields of the variant into the caller's
      keyword bag, one after another, and hands the bag to the MMTests
      template. */
  method Render(v: Variant, kwargs: Bag) returns (job: TemplateCall)
    ensures job.template == Template
    ensures job.bag.Keys == kwargs.Keys + {"name", "configfile", "iterations", "timeout"}
    ensures Overrides(kwargs, Fields(v), job.bag)
  {
    var bag := kwargs;
    bag := bag["name" := Str(v.test.name)];
    bag := bag["configfile" := Str(v.configfile)];
    bag := bag["iterations" := Int(v.iterations)];
    bag := bag["timeout" := Int(v.test.timeout)];
    job := TemplateCall(Template, bag);
  }
}
