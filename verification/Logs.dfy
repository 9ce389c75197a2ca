/** Logs, as both tracers read them off the stack and memory of a LOG opcode. */
module Logs {

  datatype Log = Log(topics: seq<string>, data: string)

  predicate IsLog(opcode: string) {
    "LOG" <= opcode
  }

  /** How many topics a LOG opcode takes, by the digit that ends it. */
  function TopicCount(opcode: string): nat {
    match opcode
    case "LOG1" => 1
    case "LOG2" => 2
    case "LOG3" => 3
    case "LOG4" => 4
    case _ => 0
  }

  /** What the opcode emits, given the stack from its third word on and the memory that the first two words delimit. */
  function Emit(opcode: string, words: seq<string>, data: string): Log {
    var n := TopicCount(opcode);
    Log(words[..if n < |words| then n else |words|], data)
  }

  /** LOG0 to LOG4 emit the first words as that many topics, and the data as it is. */
  lemma EmitIs(n: nat, words: seq<string>, data: string)
    requires n <= 4 && n <= |words|
    ensures Emit(["LOG0", "LOG1", "LOG2", "LOG3", "LOG4"][n], words, data) == Log(words[..n], data)
  {
    var names := ["LOG0", "LOG1", "LOG2", "LOG3", "LOG4"];
    assert n == 0 || n == 1 || n == 2 || n == 3 || n == 4;
    assert TopicCount(names[n]) == n;
  }
}
