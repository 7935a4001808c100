/**
 * LogService.SingleLineFormatter: a log record as a one-line header
 * followed, when the record carries a throwable, by its cause chain in short
 * form (messages) and by its stack traces.
 */
module Formatter {
  import opened JavaLang

  /**
   * A throwable as the formatter sees it: getClass().getSimpleName(),
   * getMessage(), the toString() of each stack frame (top first), and
   * getCause() as an index into the heap of throwables (None for null).
   */
  datatype Throwable = Throwable(simpleName: string, message: JString, stackTrace: seq<string>, cause: Option<nat>)

  /**
   * Causes point into the heap. They may form cycles, but getCause never
   * returns the throwable itself.
   */
  predicate WellFormed(heap: seq<Throwable>)
  {
    forall i | 0 <= i < |heap| :: heap[i].cause.Some? ==> heap[i].cause.value < |heap| && heap[i].cause.value != i
  }

  predicate InHeap(heap: seq<Throwable>, list: seq<nat>)
  {
    forall i | 0 <= i < |list| :: list[i] < |heap|
  }

  /** Each element is the cause of the one after it. */
  predicate Linked(heap: seq<Throwable>, list: seq<nat>)
  {
    InHeap(heap, list) && forall i | 0 <= i < |list| - 1 :: heap[list[i + 1]].cause == Some(list[i])
  }

  // ---------------------------------------------------------------------------
  // resolveNestedExceptions
  // ---------------------------------------------------------------------------

  /** The number of causes resolveNestedExceptions follows before it stops (the loop breaks once count > 100). */
  const MaxCauses: nat := 101

  /**
   * The cause chain that ends in `e`, innermost first, following at most
   * `hops` causes.
   */
  function CauseChain(heap: seq<Throwable>, e: nat, hops: nat): (chain: seq<nat>)
    requires WellFormed(heap) && e < |heap|
    ensures 1 <= |chain| <= hops + 1
    ensures chain[|chain| - 1] == e
    ensures chain[0] < |heap|
    ensures |chain| == hops + 1 || heap[chain[0]].cause.None?
    decreases hops
  {
    if hops == 0 || heap[e].cause.None? then [e]
    else CauseChain(heap, heap[e].cause.value, hops - 1) + [e]
  }

  /** Each throwable in the chain is the cause of the one after it. */
  lemma {:induction false} CauseChainLinked(heap: seq<Throwable>, e: nat, hops: nat)
    requires WellFormed(heap) && e < |heap|
    ensures Linked(heap, CauseChain(heap, e, hops))
    decreases hops
  {
    if hops > 0 && heap[e].cause.Some? {
      var front := CauseChain(heap, heap[e].cause.value, hops - 1);
      CauseChainLinked(heap, heap[e].cause.value, hops - 1);
      var chain := front + [e];
      assert forall i | 0 <= i < |front| :: chain[i] == front[i];
    }
  }

  /** The list resolveNestedExceptions returns for the record's throwable. */
  function NestedExceptions(heap: seq<Throwable>, thrown: Option<nat>): (list: seq<nat>)
    requires WellFormed(heap) && (thrown.Some? ==> thrown.value < |heap|)
    ensures |list| == 0 <==> thrown.None?
    ensures |list| <= MaxCauses + 1
    ensures thrown.Some? ==> list[|list| - 1] == thrown.value
    ensures Linked(heap, list)
    ensures thrown.Some? ==> |list| == MaxCauses + 1 || heap[list[0]].cause.None?
  {
    if thrown.None? then []
    else
      CauseChainLinked(heap, thrown.value, MaxCauses);
      CauseChain(heap, thrown.value, MaxCauses)
  }

  /**
   * The chain is the only list that ends in `e`, links each element to its
   * cause, and stops at the innermost throwable or after `hops` causes.
   */
  lemma {:induction false} CauseChainUnique(heap: seq<Throwable>, e: nat, hops: nat, chain: seq<nat>)
    requires WellFormed(heap) && e < |heap|
    requires 1 <= |chain| <= hops + 1 && chain[|chain| - 1] == e
    requires Linked(heap, chain)
    requires |chain| == hops + 1 || heap[chain[0]].cause.None?
    ensures chain == CauseChain(heap, e, hops)
    decreases hops
  {
    if |chain| > 1 {
      var front := chain[..|chain| - 1];
      assert heap[e].cause == Some(front[|front| - 1]);
      assert Linked(heap, front) by {
        forall i | 0 <= i < |front| - 1
          ensures heap[front[i + 1]].cause == Some(front[i])
        {
          assert front[i + 1] == chain[i + 1] && front[i] == chain[i];
        }
      }
      CauseChainUnique(heap, front[|front| - 1], hops - 1, front);
      assert chain == front + [e];
    }
  }

  /** When every throwable has a cause (a cycle), the chain is cut after `hops` causes. */
  lemma {:induction false} CyclicCausesTruncated(heap: seq<Throwable>, e: nat, hops: nat)
    requires WellFormed(heap) && e < |heap|
    requires forall i | 0 <= i < |heap| :: heap[i].cause.Some?
    ensures |CauseChain(heap, e, hops)| == hops + 1
    decreases hops
  {
    if hops > 0 {
      CyclicCausesTruncated(heap, heap[e].cause.value, hops - 1);
    }
  }

  /** In a linked list, a repeated throwable forces the front to repeat as well. */
  lemma {:induction false} RepeatReachesFront(heap: seq<Throwable>, list: seq<nat>, i: nat, j: nat)
    requires Linked(heap, list)
    requires i < j < |list| && list[i] == list[j]
    ensures list[0] == list[j - i]
    ensures heap[list[0]].cause.Some?
    decreases i
  {
    assert heap[list[j - i]].cause == Some(list[j - i - 1]);
    if i > 0 {
      assert heap[list[i]].cause == Some(list[i - 1]);
      assert heap[list[j]].cause == Some(list[j - 1]);
      RepeatReachesFront(heap, list, i - 1, j - 1);
    }
  }

  /** A chain that reaches a throwable without a cause lists no throwable twice. */
  lemma CompleteChainHasNoRepeats(heap: seq<Throwable>, list: seq<nat>)
    requires Linked(heap, list) && |list| >= 1
    requires heap[list[0]].cause.None?
    ensures forall i, j | 0 <= i < j < |list| :: list[i] != list[j]
  {
    forall i, j | 0 <= i < j < |list|
      ensures list[i] != list[j]
    {
      if list[i] == list[j] {
        RepeatReachesFront(heap, list, i, j);
        assert false;
      }
    }
  }

  /**
   * resolveNestedExceptions: puts each cause in front of the list, starting
   * from the caught throwable, and stops at a null cause or after 101 causes.
   * The source tests `count > 100` right after incrementing and breaks; the
   * guard `count <= 100` makes the same test before the next step.
   */
  method ResolveNestedExceptions(heap: seq<Throwable>, rootException: Option<nat>) returns (list: seq<nat>)
    requires WellFormed(heap) && (rootException.Some? ==> rootException.value < |heap|)
    ensures list == NestedExceptions(heap, rootException)
  {
    if rootException.None? {
      return [];
    }
    var root := rootException.value;
    list := [root];
    var nestedException := heap[root].cause;
    var count := 0;
    ghost var whole := CauseChain(heap, root, MaxCauses);
    ghost var front: nat := root;
    ghost var wrappers: seq<nat> := [];
    while nestedException.Some? && count <= 100
      invariant 0 <= count <= MaxCauses
      invariant front < |heap| && list == [front] + wrappers
      invariant nestedException == heap[front].cause
      invariant whole == CauseChain(heap, front, MaxCauses - count) + wrappers
      decreases MaxCauses - count
    {
      var nested := nestedException.value;
      assert nested < |heap| by {
        assert heap[front].cause == Some(nested);
      }
      CauseChainStep(heap, front, MaxCauses - count, wrappers);
      wrappers := [front] + wrappers;
      front := nested;
      list := [nested] + list;
      nestedException := heap[nested].cause;
      count := count + 1;
    }
    CauseChainEnd(heap, front, MaxCauses - count, wrappers);
  }

  /** One step of the walk: a throwable with a cause comes after its cause's chain. */
  lemma CauseChainStep(heap: seq<Throwable>, e: nat, hops: nat, wrappers: seq<nat>)
    requires WellFormed(heap) && e < |heap|
    requires hops > 0 && heap[e].cause.Some?
    ensures CauseChain(heap, e, hops) + wrappers == CauseChain(heap, heap[e].cause.value, hops - 1) + ([e] + wrappers)
  {
  }

  /** The walk ends at a throwable without a cause, or when no hops are left. */
  lemma CauseChainEnd(heap: seq<Throwable>, e: nat, hops: nat, wrappers: seq<nat>)
    requires WellFormed(heap) && e < |heap|
    requires hops == 0 || heap[e].cause.None?
    ensures CauseChain(heap, e, hops) + wrappers == [e] + wrappers
  {
  }

  // ---------------------------------------------------------------------------
  // printNestedExceptionsShortForm
  // ---------------------------------------------------------------------------

  /** printExceptionMessage: the message, or a placeholder, and a blank line. */
  function MessageText(t: Throwable): (text: string)
    ensures |text| >= 2 && text[|text| - 2..] == "\n\n"
    ensures t.message.Some? ==> text[..|text| - 2] == t.message.value
    ensures t.message.None? ==> text[..|text| - 2] == "<no message>"
  {
    (if t.message.Some? then t.message.value else "<no message>") + "\n\n"
  }

  /** `acc` followed by the block for one wrapping throwable. */
  function AppendWrappedBy(acc: string, t: Throwable): string
  {
    acc + "                Wrapped by: " + t.simpleName + "\n                   Message: " + MessageText(t)
  }

  /** The short form of the innermost throwable of a longer chain, followed by the blocks of its first `n - 1` wrappers. */
  function ShortFormUpTo(heap: seq<Throwable>, list: seq<nat>, n: nat): string
    requires InHeap(heap, list) && 1 <= n <= |list|
    decreases n
  {
    if n == 1 then "\nROOT EXCEPTION: " + heap[list[0]].simpleName + "\n       MESSAGE: " + MessageText(heap[list[0]])
    else AppendWrappedBy(ShortFormUpTo(heap, list, n - 1), heap[list[n - 1]])
  }

  /** The text printNestedExceptionsShortForm returns for a list in innermost-first order. */
  function ShortForm(heap: seq<Throwable>, list: seq<nat>): string
    requires InHeap(heap, list)
  {
    if |list| == 0 then ""
    else if |list| == 1 then
      "\nEXCEPTION: " + heap[list[0]].simpleName + "\n  MESSAGE: " + MessageText(heap[list[0]]) + "\n"
    else ShortFormUpTo(heap, list, |list|)
  }

  /** The short form up to `n` depends on the first `n` throwables only. */
  lemma {:induction false} ShortFormUpToStable(heap: seq<Throwable>, list: seq<nat>, other: seq<nat>, n: nat)
    requires InHeap(heap, list) && InHeap(heap, other) && 1 <= n <= |list| && n <= |other|
    requires list[..n] == other[..n]
    ensures ShortFormUpTo(heap, list, n) == ShortFormUpTo(heap, other, n)
    decreases n
  {
    assert list[n - 1] == list[..n][n - 1] == other[..n][n - 1] == other[n - 1];
    if n > 1 {
      assert list[..n - 1] == list[..n][..n - 1] == other[..n][..n - 1] == other[..n - 1];
      ShortFormUpToStable(heap, list, other, n - 1);
    }
  }

  lemma AppendWrappedByExtends(acc: string, t: Throwable)
    ensures acc <= AppendWrappedBy(acc, t)
  {
    var text := AppendWrappedBy(acc, t);
    assert text[..|acc|] == acc;
  }

  /** Each further wrapper only appends to what is already there. */
  lemma {:induction false} ShortFormUpToGrows(heap: seq<Throwable>, list: seq<nat>, m: nat, n: nat)
    requires InHeap(heap, list) && 1 <= m <= n <= |list|
    ensures ShortFormUpTo(heap, list, m) <= ShortFormUpTo(heap, list, n)
    decreases n
  {
    if m < n {
      ShortFormUpToGrows(heap, list, m, n - 1);
      AppendWrappedByExtends(ShortFormUpTo(heap, list, n - 1), heap[list[n - 1]]);
    }
  }

  /**
   * The caught throwable's block comes last: a chain of three or more prints
   * as the chain without its outermost throwable, followed by that
   * throwable's block.
   */
  lemma ShortFormEndsWithCaught(heap: seq<Throwable>, list: seq<nat>)
    requires InHeap(heap, list) && |list| >= 3
    ensures ShortForm(heap, list) == AppendWrappedBy(ShortForm(heap, list[..|list| - 1]), heap[list[|list| - 1]])
  {
    var front := list[..|list| - 1];
    assert front[..|front|] == list[..|front|];
    ShortFormUpToStable(heap, front, list, |front|);
  }

  /**
   * Throwables are printed innermost first: once the root has a wrapper, the
   * short form of any prefix of the chain is a prefix of the short form of
   * the whole chain.
   */
  lemma ShortFormExtends(heap: seq<Throwable>, list: seq<nat>, k: nat)
    requires InHeap(heap, list) && 2 <= k <= |list|
    ensures ShortForm(heap, list[..k]) <= ShortForm(heap, list)
  {
    var prefix := list[..k];
    assert prefix[..k] == list[..k];
    ShortFormUpToStable(heap, prefix, list, k);
    ShortFormUpToGrows(heap, list, k, |list|);
  }

  method PrintNestedExceptionsShortForm(heap: seq<Throwable>, exceptions: seq<nat>) returns (text: string)
    requires InHeap(heap, exceptions)
    ensures text == ShortForm(heap, exceptions)
  {
    if |exceptions| == 0 {
      return "";
    }
    var t := heap[exceptions[0]];
    if |exceptions| == 1 {
      return "\nEXCEPTION: " + t.simpleName + "\n  MESSAGE: " + MessageText(t) + "\n";
    }
    text := "\nROOT EXCEPTION: " + t.simpleName + "\n       MESSAGE: " + MessageText(t);
    var listPosition := 1;
    while listPosition < |exceptions|
      invariant 1 <= listPosition <= |exceptions|
      invariant text == ShortFormUpTo(heap, exceptions, listPosition)
    {
      var wrappingException := heap[exceptions[listPosition]];
      text := text + "                Wrapped by: " + wrappingException.simpleName
                   + "\n                   Message: " + MessageText(wrappingException);
      listPosition := listPosition + 1;
    }
  }

  // ---------------------------------------------------------------------------
  // printStackTraces
  // ---------------------------------------------------------------------------

  /** Frames from OpenRemote's own packages are highlighted. */
  function Marker(frame: string): string
  {
    if StartsWith(frame, "org.openremote") then "-> " else "     "
  }

  /** `acc` followed by one frame's line. */
  function AppendFrame(acc: string, indent: string, frame: string): string
  {
    acc + indent + Marker(frame) + frame + "\n"
  }

  /** `acc` followed by the lines of the first `j` frames of the innermost throwable. */
  function AppendFullStack(acc: string, frames: seq<string>, j: nat): string
    requires j <= |frames|
    decreases j
  {
    if j == 0 then acc else AppendFrame(AppendFullStack(acc, frames, j - 1), "  ", frames[j - 1])
  }

  /**
   * `acc` followed by the block for a wrapping throwable: its top frame, and
   * when it has at least three frames the next two and an ellipsis. None when
   * the stack is empty: `wrappingStack[0]` throws
   * ArrayIndexOutOfBoundsException.
   */
  function AppendWrapperStack(acc: string, t: Throwable): (r: Option<string>)
    ensures r.None? <==> |t.stackTrace| == 0
  {
    if |t.stackTrace| == 0 then None
    else
      var head := AppendFrame(acc + "\n       " + "Wrapped by : " + t.simpleName + "\n", "         ", t.stackTrace[0]);
      if |t.stackTrace| >= 3 then
        Some(AppendFrame(AppendFrame(head, "         ", t.stackTrace[1]), "         ", t.stackTrace[2]) + "         ...\n")
      else Some(head)
  }

  /** The call stack header and full stack of the innermost throwable, then the blocks of its first `n - 1` wrappers. */
  function StackTracesUpTo(heap: seq<Throwable>, list: seq<nat>, n: nat): Option<string>
    requires InHeap(heap, list) && 1 <= n <= |list|
    decreases n
  {
    if n == 1 then
      var stack := heap[list[0]].stackTrace;
      Some(AppendFullStack("CALLSTACK: " + heap[list[0]].simpleName + "\n", stack, |stack|))
    else
      var before := StackTracesUpTo(heap, list, n - 1);
      if before.None? then None else AppendWrapperStack(before.value, heap[list[n - 1]])
  }

  /** The text printStackTraces returns for a non-empty list, or None when it throws. */
  function StackTraces(heap: seq<Throwable>, list: seq<nat>): Option<string>
    requires InHeap(heap, list) && |list| >= 1
  {
    StackTracesUpTo(heap, list, |list|)
  }

  lemma {:induction false} StackTracesUpToFailure(heap: seq<Throwable>, list: seq<nat>, n: nat)
    requires InHeap(heap, list) && 1 <= n <= |list|
    ensures StackTracesUpTo(heap, list, n).None? <==> exists i | 1 <= i < n :: |heap[list[i]].stackTrace| == 0
    decreases n
  {
    if n > 1 {
      StackTracesUpToFailure(heap, list, n - 1);
    }
  }

  /**
   * printStackTraces throws exactly when some wrapping throwable (every one
   * but the innermost) has an empty stack trace.
   */
  lemma StackTracesFailure(heap: seq<Throwable>, list: seq<nat>)
    requires InHeap(heap, list) && |list| >= 1
    ensures StackTraces(heap, list).None? <==> exists i | 1 <= i < |list| :: |heap[list[i]].stackTrace| == 0
  {
    StackTracesUpToFailure(heap, list, |list|);
  }

  /** A wrapping throwable shows at most its top three frames. */
  lemma WrapperShowsTopThreeFrames(acc: string, t: Throwable, frames: seq<string>)
    requires |frames| >= 3 && |t.stackTrace| >= 3
    requires frames[..3] == t.stackTrace[..3]
    ensures AppendWrapperStack(acc, t.(stackTrace := frames)) == AppendWrapperStack(acc, t)
  {
    assert frames[0] == frames[..3][0] && frames[1] == frames[..3][1] && frames[2] == frames[..3][2];
  }

  lemma AppendFrameExtends(acc: string, indent: string, frame: string)
    ensures acc <= AppendFrame(acc, indent, frame)
  {
    assert AppendFrame(acc, indent, frame)[..|acc|] == acc;
  }

  lemma AppendWrapperStackExtends(acc: string, t: Throwable)
    requires |t.stackTrace| > 0
    ensures acc <= AppendWrapperStack(acc, t).value
  {
    assert AppendWrapperStack(acc, t).value[..|acc|] == acc;
  }

  /** The frames of the innermost throwable are printed in order, each after the ones above it. */
  lemma {:induction false} FullStackGrows(acc: string, frames: seq<string>, i: nat, j: nat)
    requires i <= j <= |frames|
    ensures AppendFullStack(acc, frames, i) <= AppendFullStack(acc, frames, j)
    decreases j
  {
    if i < j {
      FullStackGrows(acc, frames, i, j - 1);
      AppendFrameExtends(AppendFullStack(acc, frames, j - 1), "  ", frames[j - 1]);
    }
  }

  /** The blocks of the wrappers are printed in list order, each after the ones before it. */
  lemma {:induction false} StackTracesUpToGrows(heap: seq<Throwable>, list: seq<nat>, m: nat, n: nat)
    requires InHeap(heap, list) && 1 <= m <= n <= |list|
    requires StackTracesUpTo(heap, list, n).Some?
    ensures StackTracesUpTo(heap, list, m).Some?
    ensures StackTracesUpTo(heap, list, m).value <= StackTracesUpTo(heap, list, n).value
    decreases n
  {
    if m < n {
      var before := StackTracesUpTo(heap, list, n - 1);
      assert before.Some?;
      StackTracesUpToGrows(heap, list, m, n - 1);
      AppendWrapperStackExtends(before.value, heap[list[n - 1]]);
    }
  }

  /**
   * The stack traces start with the call stack header naming the innermost
   * throwable, and show every frame of that throwable, in order, with its
   * marker.
   */
  lemma StackTracesShowInnermostInFull(heap: seq<Throwable>, list: seq<nat>)
    requires InHeap(heap, list) && |list| >= 1
    requires StackTraces(heap, list).Some?
    ensures var head := "CALLSTACK: " + heap[list[0]].simpleName + "\n";
            var frames := heap[list[0]].stackTrace;
            && head <= StackTraces(heap, list).value
            && forall i | 0 <= i < |frames| ::
                 AppendFrame(AppendFullStack(head, frames, i), "  ", frames[i]) <= StackTraces(heap, list).value
  {
    var head := "CALLSTACK: " + heap[list[0]].simpleName + "\n";
    var frames := heap[list[0]].stackTrace;
    var text := StackTraces(heap, list).value;
    StackTracesUpToGrows(heap, list, 1, |list|);
    var full := AppendFullStack(head, frames, |frames|);
    assert full <= text;
    FullStackGrows(head, frames, 0, |frames|);
    forall i | 0 <= i < |frames|
      ensures AppendFrame(AppendFullStack(head, frames, i), "  ", frames[i]) <= text
    {
      FullStackGrows(head, frames, i + 1, |frames|);
    }
  }

  method PrintStackTraces(heap: seq<Throwable>, exceptions: seq<nat>) returns (r: Option<string>)
    requires InHeap(heap, exceptions) && |exceptions| >= 1
    ensures r == StackTraces(heap, exceptions)
  {
    var indent := "  ";
    var builder := "CALLSTACK: " + heap[exceptions[0]].simpleName + "\n";
    var printFullStack := true;
    var k := 0;
    while k < |exceptions|
      invariant 0 <= k <= |exceptions|
      invariant printFullStack <==> k == 0
      invariant k == 0 ==> indent == "  " && builder == "CALLSTACK: " + heap[exceptions[0]].simpleName + "\n"
      invariant k >= 1 ==> StackTracesUpTo(heap, exceptions, k) == Some(builder)
    {
      var exception := heap[exceptions[k]];
      var stack := exception.stackTrace;
      if printFullStack {
        ghost var head := builder;
        var j := 0;
        while j < |stack|
          invariant 0 <= j <= |stack|
          invariant builder == AppendFullStack(head, stack, j)
        {
          builder := builder + indent + Marker(stack[j]) + stack[j] + "\n";
          j := j + 1;
        }
      } else {
        if |stack| == 0 {
          StackTracesStayFailed(heap, exceptions, k + 1, |exceptions|);
          return None;
        }
        builder := builder + "\n       " + "Wrapped by : " + exception.simpleName + "\n";
        builder := builder + "         " + Marker(stack[0]) + stack[0] + "\n";
        if |stack| >= 3 {
          builder := builder + "         " + Marker(stack[1]) + stack[1] + "\n";
          builder := builder + "         " + Marker(stack[2]) + stack[2] + "\n";
          builder := builder + "         ...\n";
        }
      }
      indent := indent + "     ";
      printFullStack := false;
      k := k + 1;
    }
    r := Some(builder);
  }

  /** Once a wrapper has thrown, so does the walk over any longer list. */
  lemma {:induction false} StackTracesStayFailed(heap: seq<Throwable>, list: seq<nat>, m: nat, n: nat)
    requires InHeap(heap, list) && 1 <= m <= n <= |list|
    requires StackTracesUpTo(heap, list, m).None?
    ensures StackTracesUpTo(heap, list, n).None?
    decreases n
  {
    if m < n {
      StackTracesStayFailed(heap, list, m, n - 1);
    }
  }

  // ---------------------------------------------------------------------------
  // formatMessage and format
  // ---------------------------------------------------------------------------

  /**
   * The parts of a java.util.logging.LogRecord the formatter reads: the
   * timestamp already rendered by the date format, the level's name, the
   * message, the parameters' text, and the throwable.
   */
  datatype LogRecord = LogRecord(
    timestamp: string, level: JString, message: JString, parameters: Option<seq<string>>, thrown: Option<nat>)

  /**
   * formatMessage: without parameters, the message unchanged; otherwise the
   * result of MessageFormat, given here as `substitute` (None when it throws).
   * A null pattern makes MessageFormat throw.
   */
  function FormatMessage(originalMessage: JString, messageParams: Option<seq<string>>,
                         substitute: (string, seq<string>) -> Option<string>): (formatted: JString)
    ensures messageParams.None? ==> formatted == originalMessage
    ensures messageParams.Some? ==> formatted.Some?
    ensures messageParams.Some? && originalMessage.None? ==> formatted == Some("[FORMATTING ERROR] null")
    ensures messageParams.Some? && originalMessage.Some? ==>
              formatted == match substitute(originalMessage.value, messageParams.value)
                           case None => Some("[FORMATTING ERROR] " + originalMessage.value)
                           case Some(text) => Some(text)
  {
    if messageParams.None? then originalMessage
    else if originalMessage.None? then Some("[FORMATTING ERROR] null")
    else
      var result := substitute(originalMessage.value, messageParams.value);
      if result.None? then Some("[FORMATTING ERROR] " + originalMessage.value) else result
  }

  /** The first line of every formatted record. */
  function Header(record: LogRecord, substitute: (string, seq<string>) -> Option<string>): string
  {
    record.timestamp + " " + Render(record.level) + ": "
      + Render(FormatMessage(record.message, record.parameters, substitute)) + "\n"
  }

  /** `t.toString()` of the exception printStackTraces throws. */
  const ArrayIndexFault: string := "java.lang.ArrayIndexOutOfBoundsException: 0"

  /** What format returns for a record. */
  function FormatRecord(heap: seq<Throwable>, record: LogRecord, substitute: (string, seq<string>) -> Option<string>): string
    requires WellFormed(heap) && (record.thrown.Some? ==> record.thrown.value < |heap|)
  {
    var exceptions := NestedExceptions(heap, record.thrown);
    if |exceptions| == 0 then Header(record, substitute)
    else
      var traces := StackTraces(heap, exceptions);
      if traces.None? then "Log Implementation Error: " + ArrayIndexFault
      else Header(record, substitute) + ShortForm(heap, exceptions) + traces.value
  }

  /**
   * A record without a throwable is its header alone. With one, the header
   * is followed by the short form and the stack traces of its cause chain,
   * unless a wrapping throwable in the chain has no stack trace, in which
   * case the whole entry is the implementation-error line.
   */
  lemma FormatRecordShape(heap: seq<Throwable>, record: LogRecord, substitute: (string, seq<string>) -> Option<string>)
    requires WellFormed(heap) && (record.thrown.Some? ==> record.thrown.value < |heap|)
    ensures record.thrown.None? ==> FormatRecord(heap, record, substitute) == Header(record, substitute)
    ensures record.thrown.Some? ==>
              var chain := NestedExceptions(heap, record.thrown);
              if exists i | 1 <= i < |chain| :: |heap[chain[i]].stackTrace| == 0 then
                FormatRecord(heap, record, substitute) == "Log Implementation Error: " + ArrayIndexFault
              else
                && StackTraces(heap, chain).Some?
                && FormatRecord(heap, record, substitute)
                   == Header(record, substitute) + ShortForm(heap, chain) + StackTraces(heap, chain).value
  {
    if record.thrown.Some? {
      StackTracesFailure(heap, NestedExceptions(heap, record.thrown));
    }
  }

  /** format. */
  method Format(heap: seq<Throwable>, record: LogRecord, substitute: (string, seq<string>) -> Option<string>)
    returns (text: string)
    requires WellFormed(heap) && (record.thrown.Some? ==> record.thrown.value < |heap|)
    ensures text == FormatRecord(heap, record, substitute)
  {
    var logMessage := FormatMessage(record.message, record.parameters, substitute);
    var builder := record.timestamp + " " + Render(record.level) + ": " + Render(logMessage) + "\n";
    var exceptions := ResolveNestedExceptions(heap, record.thrown);
    if |exceptions| == 0 {
      return builder;
    }
    var shortForm := PrintNestedExceptionsShortForm(heap, exceptions);
    var traces := PrintStackTraces(heap, exceptions);
    if traces.None? {
      return "Log Implementation Error: " + ArrayIndexFault;
    }
    text := builder + shortForm + traces.value;
  }

  // ---------------------------------------------------------------------------
  // A worked example
  // ---------------------------------------------------------------------------

  /** An IOException caught and rethrown inside a RuntimeException whose stack trace was cleared. */
  function ClearedWrapperHeap(): seq<Throwable>
  {
    [ Throwable("IOException", Some("disk full"), ["org.openremote.Store.write"], None),
      Throwable("RuntimeException", None, [], Some(0)) ]
  }

  lemma ExampleClearedWrapper(substitute: (string, seq<string>) -> Option<string>)
    ensures WellFormed(ClearedWrapperHeap())
    ensures NestedExceptions(ClearedWrapperHeap(), Some(1)) == [0, 1]
    ensures FormatRecord(ClearedWrapperHeap(), LogRecord("[2010/01/01 00:00:00.0 UTC]", Some("SEVERE"), Some("failed"), None, Some(1)), substitute)
            == "Log Implementation Error: " + ArrayIndexFault
  {
    var heap := ClearedWrapperHeap();
    CauseChainStep(heap, 1, MaxCauses, []);
    CauseChainEnd(heap, 0, MaxCauses - 1, [1]);
  }

  /** Two throwables that are each other's cause. */
  function CyclicHeap(): seq<Throwable>
  {
    [ Throwable("IllegalStateException", None, [], Some(1)),
      Throwable("IllegalArgumentException", None, [], Some(0)) ]
  }

  lemma ExampleCycle()
    ensures WellFormed(CyclicHeap())
    ensures |NestedExceptions(CyclicHeap(), Some(0))| == MaxCauses + 1
  {
    CyclicCausesTruncated(CyclicHeap(), 0, MaxCauses);
  }
}
