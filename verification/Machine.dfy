/** What all parts of the kernel share: the null pointer, the width of a word, the size
    of a page and the end of user memory. */
module Machine {
  const NULL: nat := 0
  const PAGE_SIZE: nat := 4096
  const WORD: nat := 0x1_0000_0000_0000_0000
  const USER_END: nat := 0x0000_7FFF_FFFF_F000
}
