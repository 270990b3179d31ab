/** What the program's parts agree on. */
module Constants {
  /** The chat message that ends everything. */
  const QUIT := "q"
}
