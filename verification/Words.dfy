/** The widths the programs compute with. */
module Words {
  type byte = bv8
  type word = bv32
}
