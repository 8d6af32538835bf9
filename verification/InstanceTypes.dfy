/** Fetching the instance types of a region page by page (pkg/actuators/machineset/ec2_instance_types.go). */
module InstanceTypes {
  import opened Wrappers

  datatype Architecture = Amd64 | Arm64

  /** What EC2 reports of a type; nil pointers are None. The name is never nil. */
  datatype RawType = RawType(name: string, memoryMiB: Option<int>, vcpus: Option<int>, gpus: Option<seq<Option<int>>>,
                             architectures: seq<Option<string>>)

  datatype InstanceType = InstanceType(name: string, vcpu: int, memoryMb: int, gpu: int, architecture: Architecture)

  datatype Page = Page(types: seq<RawType>, nextToken: Option<string>)

  datatype PageError = PageError

  datatype FetchError = RequestFailed | NoTypes

  // ---- Counting GPUs ----

  const TWO_63: int := 0x8000_0000_0000_0000
  const TWO_64: int := 0x1_0000_0000_0000_0000

  /** Two's complement wrap-around of 64-bit addition. */
  function Wrap(n: int): int {
    (n + TWO_63) % TWO_64 - TWO_63
  }

  function GpuSum(gpus: seq<Option<int>>): int {
    if gpus == [] then 0 else GpuSum(gpus[..|gpus| - 1]) + gpus[|gpus| - 1].GetOr(0)
  }

  /** The sum of counts, of which those absent count as 0. */
  lemma {:induction false} GpuSumJoins(a: seq<Option<int>>, b: seq<Option<int>>)
    ensures GpuSum(a + b) == GpuSum(a) + GpuSum(b)
    ensures forall n: int :: b == [Some(n)] ==> GpuSum(a + b) == GpuSum(a) + n
    ensures b == [None] ==> GpuSum(a + b) == GpuSum(a)
  {
    if b == [] {
      assert a + b == a;
    } else {
      var n := |b| - 1;
      assert (a + b)[..|a + b| - 1] == a + b[..n];
      GpuSumJoins(a, b[..n]);
    }
  }

  lemma WrapAbsorbs(a: int, b: int)
    ensures Wrap(Wrap(a) + b) == Wrap(a + b)
  {
    var q := (a + TWO_63) / TWO_64;
    assert Wrap(a) == a - q * TWO_64;
    var x := a + b + TWO_63;
    ModShift(x, -q);
    assert Wrap(a) + b + TWO_63 == x + (-q) * TWO_64;
  }

  lemma ModShift(x: int, k: int)
    ensures (x + k * TWO_64) % TWO_64 == x % TWO_64
  {
    var q := x / TWO_64;
    assert x + k * TWO_64 == (q + k) * TWO_64 + x % TWO_64;
  }

  /** The GPU count is the sum of the counts present, modulo 64-bit wrap-around: the sum itself when it fits. */
  method GetGpuCount(gpus: seq<Option<int>>) returns (sum: int)
    ensures sum == Wrap(GpuSum(gpus))
    ensures -TWO_63 <= sum < TWO_63
    ensures -TWO_63 <= GpuSum(gpus) < TWO_63 ==> sum == GpuSum(gpus)
  {
    sum := 0;
    for i := 0 to |gpus|
      invariant sum == Wrap(GpuSum(gpus[..i]))
    {
      assert gpus[..i + 1][..i] == gpus[..i];
      if gpus[i].Some? {
        WrapAbsorbs(GpuSum(gpus[..i]), gpus[i].value);
        sum := Wrap(sum + gpus[i].value);
      }
    }
    assert gpus[..|gpus|] == gpus;
  }

  // ---- One type ----

  function NormalizeArchitecture(name: string): Architecture {
    if name == "arm64" then Arm64 else Amd64
  }

  function ArchitectureOf(raw: RawType): Architecture {
    if raw.architectures != [] && raw.architectures[0].GetOr("") != ""
      then NormalizeArchitecture(raw.architectures[0].value)
    else Amd64
  }

  function Transformed(raw: RawType): InstanceType {
    InstanceType(raw.name, raw.vcpus.GetOr(0), raw.memoryMiB.GetOr(0), Wrap(GpuSum(raw.gpus.GetOr([]))),
      ArchitectureOf(raw))
  }

  /** Whatever EC2 leaves out counts as 0, and every architecture but arm64 as amd64. */
  method TransformInstanceType(raw: RawType) returns (t: InstanceType)
    ensures t == Transformed(raw)
    ensures t.name == raw.name
    ensures if raw.memoryMiB.None? then t.memoryMb == 0 else raw.memoryMiB == Some(t.memoryMb)
    ensures if raw.vcpus.None? then t.vcpu == 0 else raw.vcpus == Some(t.vcpu)
    ensures raw.gpus.None? || raw.gpus.value == [] ==> t.gpu == 0
    ensures raw.gpus.Some? && -TWO_63 <= GpuSum(raw.gpus.value) < TWO_63 ==> t.gpu == GpuSum(raw.gpus.value)
    ensures t.architecture.Arm64? <==> raw.architectures != [] && raw.architectures[0] == Some("arm64")
  {
    t := InstanceType(raw.name, 0, 0, 0, Amd64);
    if raw.memoryMiB.Some? {
      t := t.(memoryMb := raw.memoryMiB.value);
    }
    if raw.vcpus.Some? {
      t := t.(vcpu := raw.vcpus.value);
    }
    if raw.gpus.Some? && |raw.gpus.value| > 0 {
      var gpu := GetGpuCount(raw.gpus.value);
      t := t.(gpu := gpu);
    }
    if |raw.architectures| > 0 && raw.architectures[0].Some? && raw.architectures[0].value != "" {
      t := t.(architecture := NormalizeArchitecture(raw.architectures[0].value));
    } else {
      t := t.(architecture := NormalizeArchitecture("amd64"));
    }
  }

  // ---- All pages ----

  /** All entries of all pages, in the order of arrival. */
  function Entries(pages: seq<Page>): seq<RawType> {
    if pages == [] then [] else Entries(pages[..|pages| - 1]) + pages[|pages| - 1].types
  }

  /** The last entry with the given name, searched from the end. */
  function LastNamed(entries: seq<RawType>, name: string): Option<RawType> {
    if entries == [] then None
    else if entries[|entries| - 1].name == name then Some(entries[|entries| - 1])
    else LastNamed(entries[..|entries| - 1], name)
  }

  /** It is the entry at the last position with that name. */
  lemma {:induction false} LastNamedIsLast(entries: seq<RawType>, name: string, k: nat)
    requires k < |entries| && entries[k].name == name
    requires forall i :: k < i < |entries| ==> entries[i].name != name
    ensures LastNamed(entries, name) == Some(entries[k])
  {
    if k < |entries| - 1 {
      LastNamedIsLast(entries[..|entries| - 1], name, k);
    }
  }

  /** The entries of pages come one page after the other. */
  lemma {:induction false} EntriesJoin(a: seq<Page>, b: seq<Page>)
    ensures Entries(a + b) == Entries(a) + Entries(b)
    ensures |b| == 1 ==> Entries(a + b) == Entries(a) + b[0].types
  {
    if b == [] {
      assert a + b == a;
    } else {
      var n := |b| - 1;
      assert (a + b)[..|a + b| - 1] == a + b[..n];
      EntriesJoin(a, b[..n]);
    }
  }

  /** The union of the transformed entries in which, for each name, the last one wins. */
  ghost predicate IsUnion(m: map<string, InstanceType>, entries: seq<RawType>) {
    forall name ::
      && (name in m <==> LastNamed(entries, name).Some?)
      && (name in m ==> m[name] == Transformed(LastNamed(entries, name).value))
  }

  lemma UnionGrows(m: map<string, InstanceType>, entries: seq<RawType>, raw: RawType)
    requires IsUnion(m, entries)
    ensures IsUnion(m[raw.name := Transformed(raw)], entries + [raw])
  {
    assert (entries + [raw])[..|entries|] == entries;
  }

  /** EC2's answers: to the n-th request, made with the given token. */
  type Pager = (nat, Option<string>) -> Result<Page, PageError>

  /** The token sent with request n. */
  function Token(pager: Pager, n: nat): Option<string> {
    if n == 0 then None
    else
      var earlier := pager(n - 1, Token(pager, n - 1));
      if earlier.Ok? then earlier.value.nextToken else None
  }

  function Answer(pager: Pager, n: nat): Result<Page, PageError> {
    pager(n, Token(pager, n))
  }

  /** Pages 0 to last arrive, each but the last one naming a next one. */
  ghost predicate Chain(pager: Pager, last: nat) {
    && (forall n :: 0 <= n <= last ==> Answer(pager, n).Ok?)
    && (forall n :: 0 <= n < last ==> Answer(pager, n).value.nextToken.Some?)
    && Answer(pager, last).value.nextToken.None?
  }

  /** Request bad fails after the earlier ones gave pages that all named a next one. */
  ghost predicate BreaksAt(pager: Pager, bad: nat) {
    && (forall n :: 0 <= n < bad ==> Answer(pager, n).Ok? && Answer(pager, n).value.nextToken.Some?)
    && Answer(pager, bad).Err?
  }

  function Pages(pager: Pager, count: nat): seq<Page> {
    if count == 0 then []
    else
      var p := Answer(pager, count - 1);
      Pages(pager, count - 1) + (if p.Ok? then [p.value] else [])
  }

  lemma EntriesOfNextPage(pager: Pager, count: nat)
    requires Answer(pager, count).Ok?
    ensures Entries(Pages(pager, count + 1)) == Entries(Pages(pager, count)) + Answer(pager, count).value.types
  {
    assert Pages(pager, count + 1)[..|Pages(pager, count + 1)| - 1] == Pages(pager, count);
  }

  lemma UnionIsEmptyExactlyWhen(m: map<string, InstanceType>, entries: seq<RawType>)
    requires IsUnion(m, entries)
    ensures |m| == 0 <==> entries == []
  {
    if entries != [] {
      var name := entries[|entries| - 1].name;
      assert LastNamed(entries, name).Some?;
      assert name in m;
    }
    if |m| != 0 {
      var name :| name in m;
      assert LastNamed(entries, name).Some?;
    }
  }

  method AddPage(types: map<string, InstanceType>, page: Page, ghost before: seq<RawType>)
    returns (r: map<string, InstanceType>)
    requires IsUnion(types, before)
    ensures IsUnion(r, before + page.types)
  {
    r := types;
    assert before + page.types[..0] == before;
    for i := 0 to |page.types|
      invariant IsUnion(r, before + page.types[..i])
    {
      assert before + page.types[..i + 1] == (before + page.types[..i]) + [page.types[i]];
      UnionGrows(r, before + page.types[..i], page.types[i]);
      var t := TransformInstanceType(page.types[i]);
      r := r[page.types[i].name := t];
    }
    assert page.types[..|page.types|] == page.types;
  }

  /** For every finite chain of pages: one request a page, and the last-writer-wins union of all entries, which must
      not be empty. When a page fails, nothing is returned. */
  method FetchEC2InstanceTypes(pager: Pager, ghost last: nat)
    returns (r: Result<map<string, InstanceType>, FetchError>, requests: nat)
    requires Chain(pager, last) || BreaksAt(pager, last)
    ensures requests == last + 1
    ensures BreaksAt(pager, last) <==> r == Err(RequestFailed)
    ensures Chain(pager, last) ==>
      var entries := Entries(Pages(pager, last + 1));
      if entries == [] then r == Err(NoTypes) else r.Ok? && IsUnion(r.value, entries)
  {
    hide Transformed, LastNamed, IsUnion, Entries;
    var token: Option<string> := None;
    var types: map<string, InstanceType> := map[];
    EmptyUnion();
    requests := 0;
    while true
      invariant requests <= last && token == Token(pager, requests)
      invariant IsUnion(types, Entries(Pages(pager, requests)))
      decreases last - requests
    {
      var reply := pager(requests, token);
      assert reply == Answer(pager, requests);
      if reply.Err? {
        return Err(RequestFailed), requests + 1;
      }
      EntriesOfNextPage(pager, requests);
      types := AddPage(types, reply.value, Entries(Pages(pager, requests)));
      requests := requests + 1;
      if reply.value.nextToken.None? {
        break;
      }
      token := reply.value.nextToken;
    }
    UnionIsEmptyExactlyWhen(types, Entries(Pages(pager, requests)));
    if |types| == 0 {
      return Err(NoTypes), requests;
    }
    return Ok(types), requests;
  }

  lemma EmptyUnion()
    ensures forall pager: Pager :: IsUnion(map[], Entries(Pages(pager, 0)))
  {
  }
}
