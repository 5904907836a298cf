/**
  Folder classification (core/classification_engine.py): where a brand's report goes,
  decided from its sales quantity, its inventory quantity and whether it has a deal.
 */
module ClassificationEngine {
  import opened Wrappers

  datatype Folder = Reports | NoDealFolder | EmptyBrandGuard

  /** The folder names the function returns. */
  function FolderName(f: Folder): (name: string)
    ensures name == "Reports" <==> f == Reports
    ensures name == "No_Deal" <==> f == NoDealFolder
    ensures name == "Empty_Brand_Guard" <==> f == EmptyBrandGuard
  {
    match f
    case Reports => "Reports"
    case NoDealFolder => "No_Deal"
    case EmptyBrandGuard => "Empty_Brand_Guard"
  }

  /** `classify_brand`: None for a brand with neither sales nor stock, else its folder. */
  function ClassifyBrand(salesQty: real, inventoryQty: real, hasDeal: bool): (f: Option<Folder>)
    ensures f.None? <==> salesQty == 0.0 && inventoryQty == 0.0
    ensures f == Some(EmptyBrandGuard) <==> salesQty == 0.0 && inventoryQty > 0.0 && !hasDeal
    ensures f == Some(NoDealFolder) <==>
      !hasDeal && !(salesQty == 0.0 && inventoryQty == 0.0) && !(salesQty == 0.0 && inventoryQty > 0.0)
    ensures f == Some(Reports) <==> hasDeal && !(salesQty == 0.0 && inventoryQty == 0.0)
  {
    if salesQty == 0.0 && inventoryQty == 0.0 then None
    else if salesQty == 0.0 && inventoryQty > 0.0 && !hasDeal then Some(EmptyBrandGuard)
    else if !hasDeal then Some(NoDealFolder)
    else Some(Reports)
  }
}
