/** The file store the orchestrator sees: modification stamps of files, the
    include lists held in list files, and a clock that stamps every write. */
module FreshnessCache {
  import opened Model

  datatype Store = Store(stamps: map<Path, nat>, lists: map<Path, seq<Path>>, clock: nat)

  /** Every list file has a stamp, and the clock is ahead of every stamp. */
  ghost predicate ValidStore(s: Store) {
    && s.lists.Keys <= s.stamps.Keys
    && forall p :: p in s.stamps ==> s.stamps[p] < s.clock
  }

  /** The model's reading of `file_wrapper.newer?(a, b)`, whose code is not part
      of this model: both files have a stamp and `a`'s is strictly later. */
  predicate Newer(s: Store, a: Path, b: Path) {
    a in s.stamps && b in s.stamps && s.stamps[a] > s.stamps[b]
  }

  /** The model's reading of `yaml_wrapper.load` on a list file, whose code is
      not part of this model: a file holding no list yields an error naming it. */
  function Load(s: Store, p: Path): (r: Result<seq<Path>>)
    ensures r.Ok? <==> p in s.lists
    ensures r.Ok? ==> r.value == s.lists[p]
    ensures r.Err? ==> r.error == Unloadable(p)
  {
    if p in s.lists then Ok(s.lists[p]) else Err(Unloadable(p))
  }

  /** Writing the list `inc` to the list file `p`. */
  function Write(s: Store, p: Path, inc: seq<Path>): (s': Store)
    ensures ValidStore(s) ==> ValidStore(s')
    ensures Load(s', p) == Ok(inc)
    ensures forall q :: q != p ==> Load(s', q) == Load(s, q)
    ensures ValidStore(s) ==> forall q :: q in s.stamps && q != p ==> Newer(s', p, q)
    ensures forall q :: q != p && q in s.stamps ==> q in s'.stamps && s'.stamps[q] == s.stamps[q]
  {
    Store(s.stamps[p := s.clock], s.lists[p := inc], s.clock + 1)
  }

  /** Some other party modifies the file `f` now. */
  function Touch(s: Store, f: Path): (s': Store)
    ensures ValidStore(s) ==> ValidStore(s')
    ensures ValidStore(s) ==> forall q :: q != f ==> !Newer(s', q, f)
    ensures s'.lists == s.lists
  {
    Store(s.stamps[f := s.clock], s.lists, s.clock + 1)
  }

}
