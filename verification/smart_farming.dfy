/**
 * The request side of the smart-farming analysis page: which technique is
 * selected, whether an analysis request is issued and with which technique
 * string, and the loading flag around the request.
 */
module SmartFarming {
  import opened Results
  import opened JsString

  /** The id of the technique button that asks for a free-text technique. */
  const OtherFarming := "other_farming"

  /** The ids of the technique buttons, the only values a button selects. */
  const TechniqueIds: seq<string> := ["organic_farming", "rainwater_farming", "integrated_farming", OtherFarming]

  datatype Budget = Low | Medium | High

  datatype AnalysisRequest = AnalysisRequest(technique: string, farmSize: string, budget: Budget)

  /** Why no request was issued; each is shown as a toast. */
  datatype FormError = MissingSelection | MissingCustomType

  /**
   * The checks of the analysis handler, in order: a technique and a farm size
   * must be given (the farm size is tested for emptiness only), and the
   * "other" technique needs a custom text that is not blank. An accepted form
   * becomes a request carrying the custom text for "other" and the selected id
   * otherwise, with the farm size and budget as they are.
   */
  function CheckForm(selectedTechnique: string, farmSize: string, customFarmingType: string, budget: Budget)
    : (r: Result<AnalysisRequest, FormError>)
    ensures r == Err(MissingSelection) <==> selectedTechnique == "" || farmSize == ""
    ensures r == Err(MissingCustomType) <==>
              selectedTechnique == OtherFarming && farmSize != "" && IsBlank(customFarmingType)
    ensures r.Ok? ==> r.value.farmSize == farmSize && r.value.budget == budget
    ensures r.Ok? && selectedTechnique == OtherFarming ==> r.value.technique == customFarmingType
    ensures r.Ok? && selectedTechnique != OtherFarming ==> r.value.technique == selectedTechnique
  {
    if selectedTechnique == "" || farmSize == "" then Err(MissingSelection)
    else if selectedTechnique == OtherFarming && Trim(customFarmingType) == "" then Err(MissingCustomType)
    else
      Ok(AnalysisRequest(
        if selectedTechnique == OtherFarming then customFarmingType else selectedTechnique,
        farmSize,
        budget))
  }

  /** A farm size of spaces only is not refused: the first check tests emptiness, not blankness. */
  lemma BlankFarmSizeAccepted(selectedTechnique: string, farmSize: string, customFarmingType: string, budget: Budget)
    requires selectedTechnique != "" && selectedTechnique != OtherFarming
    requires farmSize != "" && IsBlank(farmSize)
    ensures CheckForm(selectedTechnique, farmSize, customFarmingType, budget)
            == Ok(AnalysisRequest(selectedTechnique, farmSize, budget))
  {
  }

  /** The custom text is only looked at once a technique and a farm size are given. */
  lemma CustomTypeCheckedSecond(farmSize: string, customFarmingType: string, budget: Budget)
    requires IsBlank(customFarmingType)
    ensures farmSize == "" ==> CheckForm(OtherFarming, farmSize, customFarmingType, budget) == Err(MissingSelection)
    ensures farmSize != "" ==> CheckForm(OtherFarming, farmSize, customFarmingType, budget) == Err(MissingCustomType)
  {
  }

  /**
   * The page state. `Report` stands for the analysis the farming service
   * returns, whose content is not part of this model.
   */
  class SmartFarmingPage<Report> {
    var selectedTechnique: string
    var selectedBudget: Budget
    var farmSize: string
    var customFarmingType: string
    var loading: bool
    var analysisData: Option<Report>

    constructor ()
      ensures selectedTechnique == "" && selectedBudget == Medium && farmSize == "" && customFarmingType == ""
      ensures !loading && analysisData == None
    {
      selectedTechnique := "";
      selectedBudget := Medium;
      farmSize := "";
      customFarmingType := "";
      loading := false;
      analysisData := None;
    }

    /** A technique button: selects it, and clears the custom text unless it is "other". */
    method SelectTechnique(id: string)
      requires id in TechniqueIds
      modifies this`selectedTechnique, this`customFarmingType
      ensures selectedTechnique == id
      ensures customFarmingType == (if id == OtherFarming then old(customFarmingType) else "")
    {
      selectedTechnique := id;
      if id != OtherFarming {
        customFarmingType := "";
      }
    }

    /**
     * The synchronous part of the analysis handler: a refused form changes
     * nothing; an accepted one sets `loading` and issues the request.
     */
    method BeginAnalysis() returns (outcome: Result<AnalysisRequest, FormError>)
      modifies this`loading
      ensures outcome == CheckForm(selectedTechnique, farmSize, customFarmingType, selectedBudget)
      ensures loading == (outcome.Ok? || old(loading))
    {
      if selectedTechnique == "" || farmSize == "" {
        return Err(MissingSelection);
      }
      if selectedTechnique == OtherFarming && Trim(customFarmingType) == "" {
        return Err(MissingCustomType);
      }
      loading := true;
      var technique := if selectedTechnique == OtherFarming then customFarmingType else selectedTechnique;
      outcome := Ok(AnalysisRequest(technique, farmSize, selectedBudget));
    }

    /**
     * The request settled, with the report on success and `None` on failure:
     * loading ends either way, and the shown analysis changes only on success.
     */
    method FinishAnalysis(report: Option<Report>)
      modifies this`loading, this`analysisData
      ensures !loading
      ensures analysisData == (if report.Some? then report else old(analysisData))
    {
      if report.Some? {
        analysisData := report;
      }
      loading := false;
    }
  }
}
