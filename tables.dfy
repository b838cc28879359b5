/** The fixed lookup tables of the report (class attributes of `ClinReport`
    and module constants of `autoclin.py`; both files hold the same values
    except where a name below says otherwise). */
module Tables {
  import opened Base
  import opened Text

  /** `note2clinsig`: clinical significance of the causative notes. */
  const NoteToClinsig: map<string, string> := map[
    "1" := "патогенный",
    "2" := "вероятно патогенный",
    "3" := "вариант с неизвестной клинической значимостью"
  ]

  /** `note2type` (class version only): the report type of a note. */
  const NoteToType: map<string, string> := map[
    "1" := "Каузативный",
    "2" := "Каузативный",
    "3" := "Каузативный",
    "7" := "Не связан с основным диагнозом",
    "8" := "Носительство"
  ]

  /** `clinsig2msg`: ClinVar significance to its Russian label. */
  const ClinsigToMsg: map<string, string> := map[
    "Pathogenic" := "патогенный",
    "Pathogenic/Likely_pathogenic" := "патогенный / вероятно патогенный",
    "Pathogenic/Likely pathogenic" := "патогенный / вероятно патогенный",
    "Likely_pathogenic" := "вероятно патогенный",
    "Likely pathogenic" := "вероятно патогенный",
    "Uncertain_significance" := "вариант с неизвестной клинической значимостью",
    "Uncertain significance" := "вариант с неизвестной клинической значимостью"
  ]

  /** The two renderings of a zygosity: entry 1 (a table cell) and entry 2
      (a phrase in the narrative) of `zygosity2msg`. */
  datatype ZygosityMsg = ZygosityMsg(cell: string, phrase: string)

  const ZygosityToMsg: map<string, ZygosityMsg> := map[
    "het" := ZygosityMsg("Гетерозигота", "в гетерозиготном состоянии"),
    "hom" := ZygosityMsg("Гомозигота", "в гомозиготном состоянии")
  ]

  /** `inher2msg`: inheritance code to its Russian name. */
  const InherToMsg: map<string, string> := map[
    "AD" := "Аутосомно-доминантный",
    "XD" := "Х-сцепленный доминантный",
    "AR" := "Аутосомно-рецессивный",
    "XR" := "Х-сцепленный рецессивный"
  ]

  /** `inheritance_map` of `get_inher_from_omim_pheno`: the OMIM inheritance
      names and their codes, in the dictionary's order. */
  const InheritanceNames: seq<string> :=
    ["Autosomal dominant", "X-linked dominant", "Autosomal recessive", "X-linked recessive"]
  const InheritanceMap: map<string, string> := map[
    "Autosomal dominant" := "AD",
    "X-linked dominant" := "XD",
    "Autosomal recessive" := "AR",
    "X-linked recessive" := "XR"
  ]

  /** Every inheritance code, in Python's sorted order. */
  const SortedCodes: seq<string> := ["AD", "AR", "XD", "XR"]

  lemma SortedCodesAreSorted()
    ensures StrictlySorted(SortedCodes)
    ensures forall c :: c in SortedCodes <==> c in InheritanceMap.Values
  {
    assert InheritanceMap["Autosomal dominant"] == "AD";
    assert InheritanceMap["Autosomal recessive"] == "AR";
    assert InheritanceMap["X-linked dominant"] == "XD";
    assert InheritanceMap["X-linked recessive"] == "XR";
  }

  /** Column names of the classified-variant record (`process_variant_data`). */
  const ColGene := "Ген"
  const ColDisease := "Ассоциированное заболевание (OMIM)"
  const ColVariation := "Изменение ДНК (HG38) (Изменение белка)"
  const ColZygosity := "Зиготность (Тип наследования)"
  const ColFrequency := "Частота*"
  const ColCoverage := "Кол-во прочтений (АЛТ/ОБЩ)"
  const ColPathogenicity := "Патогенность"
  const ColType := "Тип"

  /** Column names of the per-sample record (`get_data`). */
  const ColSampleNumber := "Номер образца"
  const ColSex := "Пол пациента"
  const ColAge := "Возраст пациента"
  const ColDiagnosis := "Предварительный диагноз"
  const ColMethod := "Метод исследования"
  const ColDepth := "Средняя глубина прочтения генома после секвенирования"
  const ColVolume := "Количество прочитанных нуклеотидов"
  const ColReadType := "Тип прочтения"
  const ColReadLength := "Длина прочтения"
  const ColQuality := "Качество выходных данных секвенирования"

  const CaseTableHeader: seq<string> := [ColSampleNumber, ColSex, ColAge, ColDiagnosis]

  /** `tech_table_header` of the class version. */
  const TechTableHeader: seq<string> :=
    [ColMethod, ColDepth, ColVolume, ColReadType, ColReadLength, ColQuality]

  /** `tech_table_header` of the module version: one extra, empty, column. */
  const AutoTechTableHeader: seq<string> := TechTableHeader + [""]

  const SnvTableHeader: seq<string> :=
    [ColGene, ColDisease, ColVariation, ColZygosity, ColFrequency, ColCoverage]

  const CnvTableHeader: seq<string> := [
    "Изменение ДНК (HG38)", ColDisease, "Затронутые морбидные гены", "Число копий", "Классификация"
  ]

  const MtTableHeader: seq<string> :=
    [ColGene, ColDisease, "Изменение ДНК", "Классификация", ColCoverage]

  const StrTableHeader: seq<string> :=
    [ColGene, ColDisease, "Экспансия повтора", "Оценочное число повторов", "Классификация"]

  /** The carrier table: the SNV columns with the pathogenicity column fifth. */
  const CarrierTableHeader: seq<string> :=
    [ColGene, ColDisease, ColVariation, ColZygosity, ColPathogenicity, ColFrequency, ColCoverage]

  /** The ten references every bibliography starts with (`sources`). */
  const BaseSources: seq<string> := [
    "http://www.omim.org/",
    "http://www.ncbi.nlm.nih.gov/snp/",
    "http://gnomad.broadinstitute.org/",
    "http://www.ncbi.nlm.nih.gov/clinvar/",
    "https://franklin.genoox.com/clinical",
    "http://www.ensembl.org/",
    "https://www.uniprot.org/",
    "https://www.deciphergenomics.org/",
    "https://mitomap.org",
    "https://www.clinicalgenome.org/"
  ]

  const ClinvarVariationUrl := "https://www.ncbi.nlm.nih.gov/clinvar/variation/"

  /** The per-sample placeholders of `get_data`. */
  const Placeholder := "_"
  const MethodText := "полногеномное секвенирование (Whole Genome Sequencing)"
  const DepthText := "_x"
  const VolumeText := "не менее 90 млрд"
  const ReadTypeText := "парно-концевое"
  const ReadLengthText := "150"
  const QualityQ20 := "1.    число прочтений с качеством Q20: не менее 90% от числа прочтений, полученных в результате секвенирования"
  const QualityQ30 := "2.    число прочтений с качеством Q30: не менее 80% от числа прочтений, полученных в результате секвенирования"
  /** The class version joins the two quality lines into one cell. */
  const QualityText := QualityQ20 + "\n\n" + QualityQ30
}
