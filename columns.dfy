/**
 * The columns of the USPS/EasyPost bill export the adapter reads. The header strings are
 * the export's snake_case names; no property of the model depends on their spelling.
 */
module Columns {

  datatype Column =
    | TrackingCode | Rate | LabelFee | PostageFee | InsuranceFee | CarbonOffsetFee
    | Weight | Length | Width | Height | FromZip | USPSZone
    | CreatedAt | PostageLabelCreatedAt | Service | CarrierAccountID

  function Header(c: Column): string
  {
    match c
    case TrackingCode => "tracking_code"
    case Rate => "rate"
    case LabelFee => "label_fee"
    case PostageFee => "postage_fee"
    case InsuranceFee => "insurance_fee"
    case CarbonOffsetFee => "carbon_offset_fee"
    case Weight => "weight"
    case Length => "length"
    case Width => "width"
    case Height => "height"
    case FromZip => "from_zip"
    case USPSZone => "usps_zone"
    case CreatedAt => "created_at"
    case PostageLabelCreatedAt => "postage_label_created_at"
    case Service => "service"
    case CarrierAccountID => "carrier_account_id"
  }
}
