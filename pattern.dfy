/**
 * The closed enumeration of algorithmic pattern tags
 * (LeetCodeTracker/Pattern.swift). A tag's raw value is its display
 * name and doubles as its identifier; `allCases` lists the cases in
 * declaration order.
 */
module Patterns {
  import opened Wrappers

  /** Twenty tags, listed in declaration order. */
  datatype Pattern =
    | TwoPointers | SlidingWindow | BinarySearch | Greedy | Backtracking | BitManipulation
    | Array | String | LinkedList | Stack | Heap | Tree | Trie | Graph
    | Dfs | Bfs
    | Dp1D | Dp2D
    | Intervals | Math

  /** The number of cases of the enumeration. */
  const CaseCount: nat := 20

  /** `Pattern.allCases`, in declaration order. */
  const AllCases: seq<Pattern> := [
    TwoPointers, SlidingWindow, BinarySearch, Greedy, Backtracking, BitManipulation,
    Array, String, LinkedList, Stack, Heap, Tree, Trie, Graph,
    Dfs, Bfs,
    Dp1D, Dp2D,
    Intervals, Math
  ]

  /** The position of a case in declaration order. */
  function Ordinal(p: Pattern): (n: nat)
    ensures n < CaseCount
  {
    match p
    case TwoPointers => 0
    case SlidingWindow => 1
    case BinarySearch => 2
    case Greedy => 3
    case Backtracking => 4
    case BitManipulation => 5
    case Array => 6
    case String => 7
    case LinkedList => 8
    case Stack => 9
    case Heap => 10
    case Tree => 11
    case Trie => 12
    case Graph => 13
    case Dfs => 14
    case Bfs => 15
    case Dp1D => 16
    case Dp2D => 17
    case Intervals => 18
    case Math => 19
  }

  /** The raw (display) name of a case. */
  function RawValue(p: Pattern): string {
    match p
    case TwoPointers => "Two Pointers"
    case SlidingWindow => "Sliding Window"
    case BinarySearch => "Binary Search"
    case Greedy => "Greedy"
    case Backtracking => "Backtracking"
    case BitManipulation => "Bit Manipulation"
    case Array => "Array"
    case String => "String"
    case LinkedList => "Linked List"
    case Stack => "Stack"
    case Heap => "Heap / Priority Queue"
    case Tree => "Tree"
    case Trie => "Trie"
    case Graph => "Graph"
    case Dfs => "DFS"
    case Bfs => "BFS"
    case Dp1D => "DP (1D)"
    case Dp2D => "DP (2D)"
    case Intervals => "Intervals"
    case Math => "Math / Geometry"
  }

  /** `Identifiable.id`, which is the raw value. */
  function Id(p: Pattern): string {
    RawValue(p)
  }

  /** `Pattern(rawValue:)`: the case with that raw name, if any. */
  function FromRawValue(s: string): Option<Pattern> {
    if s == "Two Pointers" then Some(TwoPointers)
    else if s == "Sliding Window" then Some(SlidingWindow)
    else if s == "Binary Search" then Some(BinarySearch)
    else if s == "Greedy" then Some(Greedy)
    else if s == "Backtracking" then Some(Backtracking)
    else if s == "Bit Manipulation" then Some(BitManipulation)
    else if s == "Array" then Some(Array)
    else if s == "String" then Some(String)
    else if s == "Linked List" then Some(LinkedList)
    else if s == "Stack" then Some(Stack)
    else if s == "Heap / Priority Queue" then Some(Heap)
    else if s == "Tree" then Some(Tree)
    else if s == "Trie" then Some(Trie)
    else if s == "Graph" then Some(Graph)
    else if s == "DFS" then Some(Dfs)
    else if s == "BFS" then Some(Bfs)
    else if s == "DP (1D)" then Some(Dp1D)
    else if s == "DP (2D)" then Some(Dp2D)
    else if s == "Intervals" then Some(Intervals)
    else if s == "Math / Geometry" then Some(Math)
    else None
  }

  /**
   * `allCases` has exactly `CaseCount` entries, lists every case at its
   * ordinal, and so lists each case exactly once.
   */
  lemma AllCasesEnumerates()
    ensures |AllCases| == CaseCount
    ensures forall p :: Ordinal(p) < CaseCount && AllCases[Ordinal(p)] == p
    ensures forall i :: 0 <= i < |AllCases| ==> Ordinal(AllCases[i]) == i
    ensures forall i, j :: 0 <= i < j < |AllCases| ==> AllCases[i] != AllCases[j]
  {
    forall p ensures Ordinal(p) < CaseCount && AllCases[Ordinal(p)] == p {
      match p
      case TwoPointers =>
      case SlidingWindow =>
      case BinarySearch =>
      case Greedy =>
      case Backtracking =>
      case BitManipulation =>
      case Array =>
      case String =>
      case LinkedList =>
      case Stack =>
      case Heap =>
      case Tree =>
      case Trie =>
      case Graph =>
      case Dfs =>
      case Bfs =>
      case Dp1D =>
      case Dp2D =>
      case Intervals =>
      case Math =>
    }
  }

  /** Decoding the raw name of a case gives that case back. */
  lemma DecodeEncode(p: Pattern)
    ensures FromRawValue(RawValue(p)) == Some(p)
  {
    match p
    case TwoPointers =>
    case SlidingWindow =>
    case BinarySearch =>
    case Greedy =>
    case Backtracking =>
    case BitManipulation =>
    case Array =>
    case String =>
    case LinkedList =>
    case Stack =>
    case Heap =>
    case Tree =>
    case Trie =>
    case Graph =>
    case Dfs =>
    case Bfs =>
    case Dp1D =>
    case Dp2D =>
    case Intervals =>
    case Math =>
  }

  /** A name decodes to a case only when it is that case's raw name. */
  lemma EncodeDecode(s: string, p: Pattern)
    requires FromRawValue(s) == Some(p)
    ensures RawValue(p) == s
  {
    if s == "Two Pointers" {
    } else if s == "Sliding Window" {
    } else if s == "Binary Search" {
    } else if s == "Greedy" {
    } else if s == "Backtracking" {
    } else if s == "Bit Manipulation" {
    } else if s == "Array" {
    } else if s == "String" {
    } else if s == "Linked List" {
    } else if s == "Stack" {
    } else if s == "Heap / Priority Queue" {
    } else if s == "Tree" {
    } else if s == "Trie" {
    } else if s == "Graph" {
    } else if s == "DFS" {
    } else if s == "BFS" {
    } else if s == "DP (1D)" {
    } else if s == "DP (2D)" {
    } else if s == "Intervals" {
    } else if s == "Math / Geometry" {
    }
  }

  /** Distinct cases have distinct raw values, hence distinct ids. */
  lemma RawValueInjective(p: Pattern, q: Pattern)
    ensures RawValue(p) == RawValue(q) ==> p == q
    ensures Id(p) == Id(q) <==> p == q
  {
    DecodeEncode(p);
    DecodeEncode(q);
  }
}
