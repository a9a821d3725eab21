/** What a chat stream means as content blocks, said without machine state: runs of reasoning or
    text, and tool calls gathered by filtering, each group placed where the next run begins. */
module MessagesReference {
  import opened Wrappers
  import opened ChatChunks
  import opened ToolSegments
  import opened MessagesBridge

  datatype Atom = Piece(kind: Kind, payload: string) | ToolAtom(fragment: Fragment)

  function PieceAtoms(kind: Kind, payload: string): seq<Atom> {
    if payload != "" then [Piece(kind, payload)] else []
  }

  /** The last index the entries bring, or `last` when they bring none. */
  function LastIndex(ds: seq<ToolDelta>, last: int): int {
    if ds == [] then last
    else if ds[|ds| - 1].index.Some? then ds[|ds| - 1].index.value
    else LastIndex(ds[..|ds| - 1], last)
  }

  /** An entry without an index belongs to the last index brought so far. */
  function ToolAtoms(ds: seq<ToolDelta>, last: int): seq<Atom> {
    if ds == [] then []
    else
      var d := ds[|ds| - 1];
      ToolAtoms(ds[..|ds| - 1], last) + [ToolAtom(Fragment(LastIndex(ds, last), d.id, d.name, d.args))]
  }

  function ChunkAtoms(c: Chunk, last: int): seq<Atom> {
    if c.Choice? then PieceAtoms(Thinking, c.reasoning) + PieceAtoms(Text, c.content) + ToolAtoms(c.tools, last)
    else []
  }

  /** The last index the chunks bring, or 0. */
  function LastIndexOf(chunks: seq<Chunk>): int {
    if chunks == [] then 0
    else
      var c, before := chunks[|chunks| - 1], LastIndexOf(chunks[..|chunks| - 1]);
      if c.Choice? then LastIndex(c.tools, before) else before
  }

  function AtomsOf(chunks: seq<Chunk>): seq<Atom> {
    if chunks == [] then []
    else
      var front := chunks[..|chunks| - 1];
      AtomsOf(front) + ChunkAtoms(chunks[|chunks| - 1], LastIndexOf(front))
  }

  datatype RefBlock = Run(kind: Kind, pieces: seq<string>) | ToolCall(fragments: seq<Fragment>)

  /** The blocks so far, and the tool fragments since the last run. */
  datatype RefState = RefState(blocks: seq<RefBlock>, segment: seq<Fragment>)

  function CallsOf(segment: seq<Fragment>): seq<RefBlock> {
    var keys := CallKeys(segment);
    seq(|keys|, i requires 0 <= i < |keys| => ToolCall(Pick(segment, keys[i])))
  }

  function LastKind(blocks: seq<RefBlock>): Option<Kind> {
    if blocks != [] && blocks[|blocks| - 1].Run? then Some(blocks[|blocks| - 1].kind) else None
  }

  function AddPiece(blocks: seq<RefBlock>, kind: Kind, payload: string): seq<RefBlock> {
    if LastKind(blocks) == Some(kind) then
      blocks[..|blocks| - 1] + [Run(kind, blocks[|blocks| - 1].pieces + [payload])]
    else blocks + [Run(kind, [payload])]
  }

  function Absorb(r: RefState, a: Atom): RefState {
    match a
    case Piece(kind, payload) => RefState(AddPiece(r.blocks + CallsOf(r.segment), kind, payload), [])
    case ToolAtom(f) => r.(segment := r.segment + [f])
  }

  function AbsorbAll(r: RefState, atoms: seq<Atom>): RefState {
    if atoms == [] then r else Absorb(AbsorbAll(r, atoms[..|atoms| - 1]), atoms[|atoms| - 1])
  }

  const NO_BLOCKS := RefState([], [])

  /** The blocks of the whole stream. */
  function Blocks(atoms: seq<Atom>): seq<RefBlock> {
    var r := AbsorbAll(NO_BLOCKS, atoms);
    r.blocks + CallsOf(r.segment)
  }

  function FinishOf(chunks: seq<Chunk>): string {
    if chunks == [] then ""
    else
      var c := chunks[|chunks| - 1];
      if c.Choice? && c.finish != "" then c.finish else FinishOf(chunks[..|chunks| - 1])
  }

  lemma AbsorbSnoc(r: RefState, atoms: seq<Atom>, a: Atom)
    ensures AbsorbAll(r, atoms + [a]) == Absorb(AbsorbAll(r, atoms), a)
  {
    assert (atoms + [a])[..|atoms|] == atoms;
  }

  lemma {:induction false} AbsorbAppend(r: RefState, a: seq<Atom>, b: seq<Atom>)
    ensures AbsorbAll(r, a + b) == AbsorbAll(AbsorbAll(r, a), b)
  {
    if b == [] {
      assert a + b == a;
    } else {
      AbsorbAppend(r, a, b[..|b| - 1]);
      assert (a + b)[..|a + b| - 1] == a + b[..|b| - 1];
    }
  }
}
