/** Foundation's IndexPath as the table and collection views use it. */
module IndexPaths {

  /** A position in a sectioned view: a section index and, inside that
      section, an item index (a table view calls the item index the row). */
  datatype IndexPath = IndexPath(section: int, item: int)
}
