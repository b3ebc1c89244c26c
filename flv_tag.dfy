/** An FLV tag: the header fields and the body of one tag of an FLV file, as a
    mutable record. Every setter changes its own field and nothing else. */
module FlvTag {

  import opened JavaLang

  /** A byte buffer, by identity: the tag stores and returns the reference, never its contents. */
  datatype IoBuffer = IoBuffer(id: nat)

  class Tag {
    var tagType: int8
    var dataType: int8
    var timestamp: int32
    var bodySize: int32
    var body: Option<IoBuffer>
    // the field keeps the source's spelling; both accessor spellings reach it
    var previuosTagSize: int32
    var bitflags: int8

    /** A tag with every field at Java's default: zero, and no body. */
    constructor Empty()
      ensures tagType == 0 && dataType == 0 && timestamp == 0 && bodySize == 0
      ensures body.None? && previuosTagSize == 0 && bitflags == 0
    {
      tagType, dataType, timestamp, bodySize := 0, 0, 0, 0;
      body, previuosTagSize, bitflags := None, 0, 0;
    }

    /** A tag with the given header and body; its type and bit flags keep their default of zero. */
    constructor (dataType: int8, timestamp: int32, bodySize: int32, body: Option<IoBuffer>, previousTagSize: int32)
      ensures this.dataType == dataType && this.timestamp == timestamp && this.bodySize == bodySize
      ensures this.body == body && previuosTagSize == previousTagSize
      ensures tagType == 0 && bitflags == 0
    {
      this.dataType := dataType;
      this.timestamp := timestamp;
      this.bodySize := bodySize;
      this.body := body;
      previuosTagSize := previousTagSize;
      tagType, bitflags := 0, 0;
    }

    function GetBitflags(): (r: int8)
      reads this
      ensures r == bitflags
    {
      bitflags
    }

    method SetBitflags(bitflags: int8)
      modifies this`bitflags
      ensures this.bitflags == bitflags
    {
      this.bitflags := bitflags;
    }

    function GetPreviuosTagSize(): (r: int32)
      reads this
      ensures r == previuosTagSize
    {
      previuosTagSize
    }

    method SetPreviuosTagSize(previuosTagSize: int32)
      modifies this`previuosTagSize
      ensures this.previuosTagSize == previuosTagSize
    {
      this.previuosTagSize := previuosTagSize;
    }

    /** The tag's data is never available: this accessor answers null whatever the body. */
    function GetData(): (r: Option<IoBuffer>)
      ensures r.None?
    {
      None
    }

    function GetBody(): (r: Option<IoBuffer>)
      reads this
      ensures r == body
    {
      body
    }

    function GetBodySize(): (r: int32)
      reads this
      ensures r == bodySize
    {
      bodySize
    }

    function GetDataType(): (r: int8)
      reads this
      ensures r == dataType
    {
      dataType
    }

    function GetTimestamp(): (r: int32)
      reads this
      ensures r == timestamp
    {
      timestamp
    }

    function GetPreviousTagSize(): (r: int32)
      reads this
      ensures r == previuosTagSize
    {
      previuosTagSize
    }

    function GetType(): (r: int8)
      reads this
      ensures r == tagType
    {
      tagType
    }

    method SetType(tagType: int8)
      modifies this`tagType
      ensures this.tagType == tagType
    {
      this.tagType := tagType;
    }

    method SetBody(body: Option<IoBuffer>)
      modifies this`body
      ensures this.body == body
    {
      this.body := body;
    }

    method SetBodySize(bodySize: int32)
      modifies this`bodySize
      ensures this.bodySize == bodySize
    {
      this.bodySize := bodySize;
    }

    method SetDataType(dataType: int8)
      modifies this`dataType
      ensures this.dataType == dataType
    {
      this.dataType := dataType;
    }

    method SetTimestamp(timestamp: int32)
      modifies this`timestamp
      ensures this.timestamp == timestamp
    {
      this.timestamp := timestamp;
    }

    /** Does nothing. */
    method SetData()
      ensures unchanged(this)
    {
    }

    method SetPreviousTagSize(size: int32)
      modifies this`previuosTagSize
      ensures previuosTagSize == size
    {
      previuosTagSize := size;
    }
  }

  /** The two spellings of the previous-tag-size getter always agree. */
  lemma PreviousTagSizeGettersAgree(t: Tag)
    ensures t.GetPreviousTagSize() == t.GetPreviuosTagSize()
  {
  }

  /** Each setter changes only its own field, and the getter then returns the
      value set; the two previous-tag-size setters have the same effect. */
  method SettersRoundTrip(t: Tag, dataType: int8, timestamp: int32, size: int32, other: int32)
    modifies t
    ensures t.GetDataType() == dataType && t.GetTimestamp() == timestamp
    ensures t.GetPreviousTagSize() == other && t.GetPreviuosTagSize() == other
    ensures t.GetType() == old(t.tagType) && t.GetBitflags() == old(t.bitflags)
    ensures t.GetBody() == old(t.body) && t.GetBodySize() == old(t.bodySize)
  {
    t.SetDataType(dataType);
    t.SetTimestamp(timestamp);
    t.SetPreviousTagSize(size);
    assert t.GetPreviuosTagSize() == size;
    t.SetPreviuosTagSize(other);
    t.SetData();
  }
}
