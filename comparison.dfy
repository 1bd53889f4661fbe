/** How the two forms' required-fields tests relate. */
module FormComparison {
  import opened DataInput
  import KVStoreForm
  import IndexForm

  /** The index form's test is the stricter one. */
  lemma IndexTestImpliesKVStoreTest(f: DataInputConfig)
    requires IndexForm.RequiredFieldsFilled(f)
    ensures KVStoreForm.RequiredFieldsFilled(f)
  {
  }

  /**
    The tests differ on exactly the configurations whose four common fields are
    filled, whose input type is not `kvstore` and whose output location is empty.
   */
  lemma TestsDifferOnlyOnOutputLocation(f: DataInputConfig)
    ensures KVStoreForm.RequiredFieldsFilled(f) != IndexForm.RequiredFieldsFilled(f) <==>
      Filled(f.name) && Filled(f.url) && Filled(f.input_type) && Filled(f.cron_expression) &&
      !IsKVStoreInput(f) && !Filled(f.selected_output_location)
  {
  }

  /** For a KV-store input the two tests agree. */
  lemma TestsAgreeOnKVStoreInput(f: DataInputConfig)
    requires IsKVStoreInput(f)
    ensures KVStoreForm.RequiredFieldsFilled(f) == IndexForm.RequiredFieldsFilled(f)
  {
  }
}
