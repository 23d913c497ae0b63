/** The console loop of `interactive_chat` reduced to its decision: what
    one input line asks for. Reading the line and printing are left out. */
module Commands {
  import opened Strings

  datatype Command = Skip | Quit | Stats | Improve | Clear | Save | Ask(message: string)

  const QuitWords: seq<string> := ["quit", "exit", "q"]

  /** The words, in lower case, that are commands rather than chat messages. */
  const CommandWords: seq<string> := QuitWords + ["stats", "improve", "clear", "save"]

  /** Each command word is a quit word or exactly one of the other four. */
  lemma CommandWordsDistinct(w: string)
    ensures w in CommandWords <==> w in QuitWords || w == "stats" || w == "improve" || w == "clear" || w == "save"
    ensures w in QuitWords ==> w != "stats" && w != "improve" && w != "clear" && w != "save"
    ensures w == "stats" ==> w != "improve" && w != "clear" && w != "save"
    ensures w == "improve" ==> w != "clear" && w != "save"
    ensures w == "clear" ==> w != "save"
  {
  }

  /** The line is stripped; an empty line is skipped; the command words are
      matched case-insensitively; anything else is sent, stripped, as a message. */
  function Classify(line: string): (c: Command)
    ensures c == Skip <==> Trim(line) == ""
    ensures c == Quit <==> Trim(line) != "" && Lower(Trim(line)) in QuitWords
    ensures c == Stats <==> Trim(line) != "" && Lower(Trim(line)) == "stats"
    ensures c == Improve <==> Trim(line) != "" && Lower(Trim(line)) == "improve"
    ensures c == Clear <==> Trim(line) != "" && Lower(Trim(line)) == "clear"
    ensures c == Save <==> Trim(line) != "" && Lower(Trim(line)) == "save"
    ensures c.Ask? <==> Trim(line) != "" && Lower(Trim(line)) !in CommandWords
    ensures c.Ask? ==> c.message == Trim(line)
  {
    var input := Trim(line);
    var word := Lower(input);
    CommandWordsDistinct(word);
    if input == "" then Skip
    else if word in QuitWords then Quit
    else if word == "stats" then Stats
    else if word == "improve" then Improve
    else if word == "clear" then Clear
    else if word == "save" then Save
    else Ask(input)
  }
}
