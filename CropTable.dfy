/** The fixed table from class code to crop name (`crop_dict` in app.py) and its lookup with a default. */
module CropTable {

  /** The default `crop_dict.get` falls back to when a class code has no entry. */
  const Sentinel: string := "Unknown crop"

  /** The 22 known class codes and their display names. */
  const CropDict: map<int, string> := map[
    1 := "Rice", 2 := "Maize", 3 := "Jute", 4 := "Cotton", 5 := "Coconut", 6 := "Papaya", 7 := "Orange",
    8 := "Apple", 9 := "Muskmelon", 10 := "Watermelon", 11 := "Grapes", 12 := "Mango", 13 := "Banana",
    14 := "Pomegranate", 15 := "Lentil", 16 := "Blackgram", 17 := "Mungbean", 18 := "Mothbeans",
    19 := "Pigeonpeas", 20 := "Kidneybeans", 21 := "Chickpea", 22 := "Coffee"
  ]

  /** `crop_dict.get(code, "Unknown crop")`. */
  function CropGet(code: int): (crop: string)
    ensures 1 <= code <= 22 ==> crop in CropDict.Values && crop == CropDict[code]
    ensures crop == Sentinel <==> !(1 <= code <= 22)
  {
    if code in CropDict then CropDict[code] else Sentinel
  }

  /** Exactly the codes 1 through 22 are mapped. */
  lemma TableDomain()
    ensures forall k :: k in CropDict <==> 1 <= k <= 22
  {
  }

  lemma CodeOneIsRiceInTable()
    ensures CropDict[1] == "Rice"
  {
  }

  /** No two codes share a name. */
  lemma NamesDistinct()
    ensures forall a, b :: a in CropDict && b in CropDict && CropDict[a] == CropDict[b] ==> a == b
  {
  }

  /** No crop name is the sentinel, nor begins with the letter that starts "Error: ". */
  lemma NamesAreNotSentinel()
    ensures forall k :: k in CropDict ==> CropDict[k] != Sentinel
    ensures forall k :: k in CropDict ==> |CropDict[k]| > 0 && CropDict[k][0] != 'E'
  {
  }
}
