/** The parameters of the upload form page: which kind of upload the
    form offers and the size limit it announces. */
module Index {
  import Args

  /** The mode without its output details. */
  datatype ModeTag = MultipleFiles | SingleFile | Text

  datatype IndexTemplate = IndexTemplate(mode: ModeTag, limit: nat)

  /** Two modes are of the same variant. */
  predicate SameVariant(m1: Args.Mode, m2: Args.Mode)
  {
    (m1.MultipleFiles? && m2.MultipleFiles?) ||
    (m1.SingleFile? && m2.SingleFile?) ||
    (m1.Text? && m2.Text?)
  }

  /** `IndexTemplate::new`: the tag names the mode's variant, whatever its
      directory or output, and the limit is passed through. */
  function NewIndex(mode: Args.Mode, limit: nat): (t: IndexTemplate)
    ensures t.limit == limit
    ensures t.mode == MultipleFiles <==> mode.MultipleFiles?
    ensures t.mode == SingleFile <==> mode.SingleFile?
    ensures t.mode == Text <==> mode.Text?
  {
    IndexTemplate(
      match mode
      case MultipleFiles(_) => MultipleFiles
      case SingleFile(_) => SingleFile
      case Text(_) => Text,
      limit)
  }

  /** The tag depends only on the variant: modes of the same variant get
      the same tag, and modes of different variants different tags. */
  lemma {:induction false} TagByVariant(m1: Args.Mode, m2: Args.Mode, limit: nat)
    ensures NewIndex(m1, limit).mode == NewIndex(m2, limit).mode <==> SameVariant(m1, m2)
  {
  }
}
