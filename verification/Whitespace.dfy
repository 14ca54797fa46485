/** The characters JavaScript's \s and trim() count as white space. */
module Whitespace {
  predicate Space(c: char) {
    c in " \t\n\r" || c as int in {11, 12, 0xA0, 0x1680, 0x2028, 0x2029, 0x202F, 0x205F, 0x3000, 0xFEFF} || 0x2000 <= c as int <= 0x200A
  }

  const SPACES := {9, 10, 11, 12, 13, 32, 160, 5760, 8192, 8193, 8194, 8195, 8196, 8197, 8198, 8199, 8200, 8201, 8202,
                   8232, 8233, 8239, 8287, 12288, 65279}

  /** The twenty-five characters, by their code points. */
  lemma SpaceExactly(c: char)
    ensures Space(c) <==> c as int in SPACES
  {
    assert c in " \t\n\r" <==> c == ' ' || c == '\t' || c == '\n' || c == '\r';
  }
}
