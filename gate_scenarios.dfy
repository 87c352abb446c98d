/**
  The examples of get_command_name's documentation in agent/security.py,
  a command with runs of mixed whitespace between its tokens, and a
  command that names no program.
 */
module GateScenarios {
  import opened Wrappers
  import opened PyStr
  import opened Security

  lemma AssignmentPrefixText()
    ensures [] + Spaced(["NODE_ENV=test"] + ["npm"] + ["run"], [" ", " ", ""]) == "NODE_ENV=test npm run"
  {
    var ts := ["NODE_ENV=test"] + ["npm"] + ["run"];
    var ws := [" ", " ", ""];
    assert ts[1..] == ["npm", "run"] && ts[1..][1..] == ["run"] && ts[1..][1..][1..] == [];
    assert ws[1..] == [" ", ""] && ws[1..][1..] == [""] && ws[1..][1..][1..] == [];
    assert Spaced(ts[1..][1..], ws[1..][1..]) == "run";
    assert Spaced(ts[1..], ws[1..]) == "npm run";
  }

  lemma AssignmentPrefixPieces()
    ensures IsToken("NODE_ENV=test") && IsToken("npm") && IsToken("run")
    ensures IsAssignment("NODE_ENV=test") && !IsAssignment("npm")
    ensures Separators([" ", " ", ""])
  {
    assert "NODE_ENV=test"[8] == '=';
  }

  /** "NODE_ENV=test npm run" names npm: the leading assignment is skipped. */
  lemma AssignmentPrefixSkipped()
    ensures GetCommandName("NODE_ENV=test npm run") == "npm"
  {
    AssignmentPrefixText();
    AssignmentPrefixPieces();
    CommandNameOf([], ["NODE_ENV=test"], "npm", ["run"], [" ", " ", ""]);
    LastPieceWhole("npm", '/');
  }

  lemma MixedWhitespaceText()
    ensures " " + Spaced(["FOO=1"] + ["npm"] + ["run"], ["  ", "\t", "\n"]) == " FOO=1  npm\trun\n"
  {
    var ts := ["FOO=1"] + ["npm"] + ["run"];
    var ws := ["  ", "\t", "\n"];
    assert ts[1..] == ["npm", "run"] && ts[1..][1..] == ["run"] && ts[1..][1..][1..] == [];
    assert ws[1..] == ["\t", "\n"] && ws[1..][1..] == ["\n"] && ws[1..][1..][1..] == [];
    assert Spaced(ts[1..][1..], ws[1..][1..]) == "run\n";
    assert Spaced(ts[1..], ws[1..]) == "npm\trun\n";
  }

  lemma MixedWhitespacePieces()
    ensures IsToken("FOO=1") && IsToken("npm") && IsToken("run")
    ensures IsAssignment("FOO=1") && !IsAssignment("npm")
    ensures IsBlank(" ") && Separators(["  ", "\t", "\n"])
  {
    assert "FOO=1"[3] == '=';
  }

  /** " FOO=1  npm\trun\n" names npm: runs of spaces, tabs and newlines all separate tokens. */
  lemma MixedWhitespaceSkipped()
    ensures GetCommandName(" FOO=1  npm\trun\n") == "npm"
  {
    MixedWhitespaceText();
    MixedWhitespacePieces();
    CommandNameOf(" ", ["FOO=1"], "npm", ["run"], ["  ", "\t", "\n"]);
    LastPieceWhole("npm", '/');
  }

  lemma AbsolutePathText()
    ensures [] + Spaced([] + ["/usr/bin/" + "node"] + ["script.js"], [" ", ""]) == "/usr/bin/node script.js"
  {
    var ts := [] + ["/usr/bin/" + "node"] + ["script.js"];
    assert ts[0] == "/usr/bin/node" && ts[1..] == ["script.js"] && ts[1..][1..] == [];
    assert [" ", ""][1..] == [""] && [" ", ""][1..][1..] == [];
    assert Spaced(ts[1..], [" ", ""][1..]) == "script.js";
  }

  lemma AbsolutePathPieces()
    ensures IsToken("/usr/bin/node") && IsToken("script.js") && !IsAssignment("/usr/bin/node")
    ensures LastPiece("/usr/bin/" + "node", '/') == "node"
    ensures Separators([" ", ""])
  {
    assert !IsSpace('/') && !IsSpace('s');
    NodeAfterBin();
  }

  lemma NodeAfterBin()
    ensures LastPiece("/usr/bin/" + "node", '/') == "node"
  {
    LastPieceAfterSeparator("/usr/bin/", "node", '/');
    LastPieceWhole("node", '/');
  }

  /** "/usr/bin/node script.js" names node: the directory is dropped. */
  lemma AbsolutePathDropped()
    ensures GetCommandName("/usr/bin/node script.js") == "node"
  {
    AbsolutePathText();
    AbsolutePathPieces();
    CommandNameOf([], [], "/usr/bin/" + "node", ["script.js"], [" ", ""]);
  }

  /** "dir/ x" names nothing: its program token ends in '/'. */
  lemma TrailingSlashNamesNothing()
    ensures GetCommandName("dir/ x") == ""
  {
    assert [" ", ""][1..] == [""] && [" ", ""][1..][1..] == [];
    assert Spaced(["x"], [""]) == "x";
    assert [] + Spaced([] + ["dir/"] + ["x"], [" ", ""]) == "dir/ x";
    assert Separators([" ", ""]);
    CommandNameOf([], [], "dir/", ["x"], [" ", ""]);
  }
}
